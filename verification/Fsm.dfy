/** The convergence harness for finite state machines: a depth-first search and
    the checks built on it. */
module Fsm {
  import opened Types

  /** What an implementor declares. */
  datatype ConvergentFsm<!S(==)> = ConvergentFsm(
    all: seq<S>,
    successors: S -> seq<S>,
    isTerminal: S -> bool,
    isGoodTerminal: S -> bool,
    isGoodRestingState: S -> bool)

  datatype DefectKind =
    | EmptyStateSpace
    | DanglingEdge
    | TerminalMismatch
    | BadTerminalSink
    | DeadEndTrap
    | CannotConverge

  /** The state the message names, and for a dangling edge the state it leads to. */
  datatype FsmDefect<S> = FsmDefect(kind: DefectKind, at: Option<S>, to: Option<S>)

  // ----- What the checks are about -----

  /** `path` follows declared transitions. */
  predicate IsPath<S>(fsm: ConvergentFsm<S>, path: seq<S>) {
    |path| > 0 && forall i | 0 <= i < |path| - 1 :: path[i + 1] in fsm.successors(path[i])
  }

  /** Some path leads from `start` to a good resting state. */
  ghost predicate Converges<S(!new)>(fsm: ConvergentFsm<S>, start: S) {
    exists path :: IsPath(fsm, path) && path[0] == start && fsm.isGoodRestingState(path[|path| - 1])
  }

  ghost predicate Convergent<S(!new)>(fsm: ConvergentFsm<S>) {
    && fsm.all != []
    && (forall s, t | s in fsm.all && t in fsm.successors(s) :: t in fsm.all)
    && (forall s | s in fsm.all :: fsm.isTerminal(s) <==> fsm.successors(s) == [])
    && (forall s | s in fsm.all && fsm.isTerminal(s) :: fsm.isGoodTerminal(s))
    && (forall s | s in fsm.all :: Converges(fsm, s))
  }

  /** A finite set closed under the transitions. A state type is finite, so its
      whole carrier is one, even for a machine whose own enumeration is not closed. */
  ghost predicate IsUniverse<S(!new)>(fsm: ConvergentFsm<S>, universe: set<S>) {
    forall s, t | s in universe && t in fsm.successors(s) :: t in universe
  }

  // ----- The search -----

  lemma ConvergesFrom<S(!new)>(fsm: ConvergentFsm<S>, s: S, t: S)
    requires t in fsm.successors(s) && Converges(fsm, t)
    ensures Converges(fsm, s)
  {
    var path :| IsPath(fsm, path) && path[0] == t && fsm.isGoodRestingState(path[|path| - 1]);
    var longer := [s] + path;
    forall i | 0 <= i < |longer| - 1 ensures longer[i + 1] in fsm.successors(longer[i]) {
      if i > 0 {
        assert path[i] in fsm.successors(path[i - 1]);
      }
    }
    assert longer[|longer| - 1] == path[|path| - 1];
  }

  /** A closed set without good resting states is a trap. */
  lemma {:induction false} ClosedTrap<S(!new)>(fsm: ConvergentFsm<S>, closed: set<S>, path: seq<S>)
    requires forall s, t | s in closed && t in fsm.successors(s) :: t in closed
    requires forall s | s in closed :: !fsm.isGoodRestingState(s)
    requires IsPath(fsm, path) && path[0] in closed
    ensures !fsm.isGoodRestingState(path[|path| - 1])
    decreases |path|
  {
    if |path| > 1 {
      assert path[1] in fsm.successors(path[0]);
      var rest := path[1..];
      forall i | 0 <= i < |rest| - 1 ensures rest[i + 1] in fsm.successors(rest[i]) {
        assert path[i + 2] in fsm.successors(path[i + 1]);
      }
      ClosedTrap(fsm, closed, rest);
    }
  }

  /** Everything reachable and not yet seen hangs below the stack. */
  ghost predicate Frontier<S(!new)>(fsm: ConvergentFsm<S>, seen: set<S>, stack: seq<S>) {
    && (forall s | s in seen :: !fsm.isGoodRestingState(s))
    && (forall s, t | s in seen && t in fsm.successors(s) :: t in seen || t in stack)
  }

  /** The search terminates on any finite closed universe, and answers whether some
      path out of `start` meets a good resting state. */
  method ReachesGoodTerminal<S(!new, ==)>(fsm: ConvergentFsm<S>, start: S, ghost universe: set<S>)
    returns (found: bool)
    requires start in universe && IsUniverse(fsm, universe)
    ensures found <==> Converges(fsm, start)
  {
    var seen: set<S> := {};
    var stack := [start];
    while stack != []
      invariant seen <= universe && forall s | s in stack :: s in universe
      invariant start in seen || start in stack
      invariant Frontier(fsm, seen, stack)
      invariant forall s | s in stack || s in seen :: Converges(fsm, s) ==> Converges(fsm, start)
      decreases |universe - seen|, |stack|
    {
      var s := stack[|stack| - 1];
      var rest := stack[..|stack| - 1];
      assert s in stack && forall t :: t in stack <==> t == s || t in rest;
      if s in seen {
        stack := rest;
      } else {
        assert universe - seen == (universe - (seen + {s})) + {s};
        seen := seen + {s};
        if fsm.isGoodRestingState(s) {
          assert IsPath(fsm, [s]) && [s][0] == s;
          return true;
        }
        forall t | t in fsm.successors(s) && Converges(fsm, t) ensures Converges(fsm, start) {
          ConvergesFrom(fsm, s, t);
        }
        stack := rest + fsm.successors(s);
      }
    }
    if Converges(fsm, start) {
      var path :| IsPath(fsm, path) && path[0] == start && fsm.isGoodRestingState(path[|path| - 1]);
      ClosedTrap(fsm, seen, path);
    }
    return false;
  }

  // ----- The checks -----

  method CheckStateSpaceNonEmpty<S(==)>(fsm: ConvergentFsm<S>) returns (defects: seq<FsmDefect<S>>)
    ensures defects == if fsm.all == [] then [FsmDefect(EmptyStateSpace, None, None)] else []
  {
    defects := if fsm.all == [] then [FsmDefect(EmptyStateSpace, None, None)] else [];
  }

  /** The edges of one state that leave the enumeration, in order. */
  function DanglingFrom<S(==)>(fsm: ConvergentFsm<S>, s: S, targets: seq<S>): seq<FsmDefect<S>> {
    if targets == [] then []
    else
      var rest := targets[..|targets| - 1];
      var t := targets[|targets| - 1];
      DanglingFrom(fsm, s, rest) + if t in fsm.all then [] else [FsmDefect(DanglingEdge, Some(s), Some(t))]
  }

  function TerminalDefects<S(==)>(fsm: ConvergentFsm<S>, s: S): seq<FsmDefect<S>> {
    (if fsm.isTerminal(s) != (fsm.successors(s) == []) then [FsmDefect(TerminalMismatch, Some(s), None)] else []) +
    (if fsm.isTerminal(s) && !fsm.isGoodTerminal(s) then [FsmDefect(BadTerminalSink, Some(s), None)] else [])
  }

  function TrapDefects<S(==)>(fsm: ConvergentFsm<S>, s: S): seq<FsmDefect<S>> {
    if !fsm.isTerminal(s) && fsm.successors(s) == [] then [FsmDefect(DeadEndTrap, Some(s), None)] else []
  }

  ghost function ConvergenceDefects<S(!new)>(fsm: ConvergentFsm<S>, s: S): seq<FsmDefect<S>> {
    if Converges(fsm, s) then [] else [FsmDefect(CannotConverge, Some(s), None)]
  }

  /** One list per state, concatenated in the order of the enumeration. */
  ghost function Collected<S(!new)>(states: seq<S>, defectsOf: S -> seq<FsmDefect<S>>): seq<FsmDefect<S>> {
    if states == [] then []
    else Collected(states[..|states| - 1], defectsOf) + defectsOf(states[|states| - 1])
  }

  ghost function GraphDefects<S(!new)>(fsm: ConvergentFsm<S>): seq<FsmDefect<S>> {
    Collected(fsm.all, s => DanglingFrom(fsm, s, fsm.successors(s)))
  }

  ghost function TerminalsDefects<S(!new)>(fsm: ConvergentFsm<S>): seq<FsmDefect<S>> {
    Collected(fsm.all, s => TerminalDefects(fsm, s))
  }

  ghost function TrapsDefects<S(!new)>(fsm: ConvergentFsm<S>): seq<FsmDefect<S>> {
    Collected(fsm.all, s => TrapDefects(fsm, s))
  }

  ghost function StuckDefects<S(!new)>(fsm: ConvergentFsm<S>): seq<FsmDefect<S>> {
    Collected(fsm.all, s => ConvergenceDefects(fsm, s))
  }

  lemma {:induction false} CollectedEmpty<S(!new)>(states: seq<S>, defectsOf: S -> seq<FsmDefect<S>>)
    ensures Collected(states, defectsOf) == [] <==> forall s | s in states :: defectsOf(s) == []
  {
    if states != [] {
      var rest := states[..|states| - 1];
      CollectedEmpty(rest, defectsOf);
      assert states == rest + [states[|states| - 1]];
      assert forall s :: s in states <==> s in rest || s == states[|states| - 1];
    }
  }

  /** If only the state `s` yields the defect `d`, it is listed once for each time `s` is
      enumerated and each time `s` yields it. */
  lemma {:induction false} CollectedCounts<S(!new)>(states: seq<S>, defectsOf: S -> seq<FsmDefect<S>>,
                                                    d: FsmDefect<S>, s: S)
    requires forall x | x != s :: d !in defectsOf(x)
    ensures multiset(Collected(states, defectsOf))[d] == multiset(states)[s] * multiset(defectsOf(s))[d]
    decreases |states|
  {
    if states != [] {
      var rest, last := states[..|states| - 1], states[|states| - 1];
      CollectedCounts(rest, defectsOf, d, s);
      assert states == rest + [last];
      assert multiset(states)[s] == multiset(rest)[s] + if last == s then 1 else 0;
      assert last != s ==> d !in multiset(defectsOf(last));
      AddOne(multiset(rest)[s], multiset(defectsOf(s))[d]);
    }
  }

  lemma AddOne(n: nat, each: nat)
    ensures (n + 1) * each == n * each + each
  {
  }

  lemma CollectedWithout<S(!new)>(states: seq<S>, defectsOf: S -> seq<FsmDefect<S>>, d: FsmDefect<S>)
    requires forall x :: d !in defectsOf(x)
    ensures multiset(Collected(states, defectsOf))[d] == 0
    decreases |states|
  {
    if states != [] {
      var last := states[|states| - 1];
      CollectedWithout(states[..|states| - 1], defectsOf, d);
      assert d !in multiset(defectsOf(last));
    }
  }

  lemma {:induction false} DanglingCounts<S(!new)>(fsm: ConvergentFsm<S>, s: S, targets: seq<S>, d: FsmDefect<S>)
    ensures multiset(DanglingFrom(fsm, s, targets))[d] ==
            if d.kind.DanglingEdge? && d.at == Some(s) && d.to.Some? && d.to.value !in fsm.all
            then multiset(targets)[d.to.value] else 0
    decreases |targets|
  {
    if targets != [] {
      var rest := targets[..|targets| - 1];
      DanglingCounts(fsm, s, rest, d);
      assert targets == rest + [targets[|targets| - 1]];
    }
  }

  // ----- What each check reports, defect by defect -----

  /** How often a dangling edge is reported: as often as its source is enumerated and
      the edge to a state outside the enumeration declared. */
  ghost function TimesDangling<S(!new)>(fsm: ConvergentFsm<S>, d: FsmDefect<S>): nat {
    if d.kind.DanglingEdge? && d.at.Some? && d.to.Some? && d.to.value !in fsm.all
    then multiset(fsm.all)[d.at.value] * multiset(fsm.successors(d.at.value))[d.to.value] else 0
  }

  /** A wrong terminal flag or a bad terminal: once each time the state is enumerated. */
  ghost function TimesTerminal<S(!new)>(fsm: ConvergentFsm<S>, d: FsmDefect<S>): nat {
    if d.at.Some? && d.to.None? && (
         || (d.kind.TerminalMismatch? && (fsm.isTerminal(d.at.value) <==> fsm.successors(d.at.value) != []))
         || (d.kind.BadTerminalSink? && fsm.isTerminal(d.at.value) && !fsm.isGoodTerminal(d.at.value)))
    then multiset(fsm.all)[d.at.value] else 0
  }

  /** A state that is not terminal and has no successor. */
  ghost function TimesTrapped<S(!new)>(fsm: ConvergentFsm<S>, d: FsmDefect<S>): nat {
    if d.kind.DeadEndTrap? && d.at.Some? && d.to.None?
       && !fsm.isTerminal(d.at.value) && fsm.successors(d.at.value) == []
    then multiset(fsm.all)[d.at.value] else 0
  }

  /** A state from which no path leads to a good resting state. */
  ghost function TimesStuck<S(!new)>(fsm: ConvergentFsm<S>, d: FsmDefect<S>): nat {
    if d.kind.CannotConverge? && d.at.Some? && d.to.None? && !Converges(fsm, d.at.value)
    then multiset(fsm.all)[d.at.value] else 0
  }

  lemma GraphReport<S(!new)>(fsm: ConvergentFsm<S>, d: FsmDefect<S>)
    ensures multiset(GraphDefects(fsm))[d] == TimesDangling(fsm, d)
  {
    hide DanglingFrom, Collected;
    var f := s => DanglingFrom(fsm, s, fsm.successors(s));
    forall s ensures multiset(f(s))[d] > 0 ==> d.kind.DanglingEdge? && d.at == Some(s) {
      DanglingCounts(fsm, s, fsm.successors(s), d);
    }
    assert forall s :: d in f(s) <==> multiset(f(s))[d] > 0;
    if d.at.Some? {
      CollectedCounts(fsm.all, f, d, d.at.value);
      DanglingCounts(fsm, d.at.value, fsm.successors(d.at.value), d);
    } else {
      CollectedWithout(fsm.all, f, d);
    }
  }

  lemma TerminalCounts<S(!new)>(fsm: ConvergentFsm<S>, s: S, d: FsmDefect<S>)
    ensures multiset(TerminalDefects(fsm, s))[d] ==
      if d.at == Some(s) && d.to.None? && (
           || (d.kind.TerminalMismatch? && (fsm.isTerminal(s) <==> fsm.successors(s) != []))
           || (d.kind.BadTerminalSink? && fsm.isTerminal(s) && !fsm.isGoodTerminal(s)))
      then 1 else 0
  {
  }

  lemma TerminalsReport<S(!new)>(fsm: ConvergentFsm<S>, d: FsmDefect<S>)
    ensures multiset(TerminalsDefects(fsm))[d] == TimesTerminal(fsm, d)
  {
    hide TerminalDefects, Collected;
    var f := s => TerminalDefects(fsm, s);
    forall s ensures multiset(f(s))[d] > 0 ==> d.at == Some(s) {
      TerminalCounts(fsm, s, d);
    }
    assert forall s :: d in f(s) <==> multiset(f(s))[d] > 0;
    if d.at.Some? {
      CollectedCounts(fsm.all, f, d, d.at.value);
      TerminalCounts(fsm, d.at.value, d);
    } else {
      CollectedWithout(fsm.all, f, d);
    }
  }

  lemma TrapsReport<S(!new)>(fsm: ConvergentFsm<S>, d: FsmDefect<S>)
    ensures multiset(TrapsDefects(fsm))[d] == TimesTrapped(fsm, d)
  {
    hide Collected;
    var f := s => TrapDefects(fsm, s);
    if d.at.Some? {
      CollectedCounts(fsm.all, f, d, d.at.value);
    } else {
      CollectedWithout(fsm.all, f, d);
    }
  }

  lemma StuckReport<S(!new)>(fsm: ConvergentFsm<S>, d: FsmDefect<S>)
    ensures multiset(StuckDefects(fsm))[d] == TimesStuck(fsm, d)
  {
    hide Converges, Collected;
    var f := s => ConvergenceDefects(fsm, s);
    if d.at.Some? {
      CollectedCounts(fsm.all, f, d, d.at.value);
    } else {
      CollectedWithout(fsm.all, f, d);
    }
  }

  lemma GraphReports<S(!new)>(fsm: ConvergentFsm<S>)
    ensures forall d :: multiset(GraphDefects(fsm))[d] == TimesDangling(fsm, d)
  {
    hide GraphDefects, TimesDangling;
    forall d ensures multiset(GraphDefects(fsm))[d] == TimesDangling(fsm, d) {
      GraphReport(fsm, d);
    }
  }

  lemma TerminalsReports<S(!new)>(fsm: ConvergentFsm<S>)
    ensures forall d :: multiset(TerminalsDefects(fsm))[d] == TimesTerminal(fsm, d)
  {
    hide TerminalsDefects, TimesTerminal;
    forall d ensures multiset(TerminalsDefects(fsm))[d] == TimesTerminal(fsm, d) {
      TerminalsReport(fsm, d);
    }
  }

  lemma TrapsReports<S(!new)>(fsm: ConvergentFsm<S>)
    ensures forall d :: multiset(TrapsDefects(fsm))[d] == TimesTrapped(fsm, d)
  {
    hide TrapsDefects, TimesTrapped;
    forall d ensures multiset(TrapsDefects(fsm))[d] == TimesTrapped(fsm, d) {
      TrapsReport(fsm, d);
    }
  }

  lemma StuckReports<S(!new)>(fsm: ConvergentFsm<S>)
    ensures forall d :: multiset(StuckDefects(fsm))[d] == TimesStuck(fsm, d)
  {
    hide StuckDefects, TimesStuck;
    forall d ensures multiset(StuckDefects(fsm))[d] == TimesStuck(fsm, d) {
      StuckReport(fsm, d);
    }
  }

  lemma {:induction false} DanglingEmpty<S(!new)>(fsm: ConvergentFsm<S>, s: S, targets: seq<S>)
    ensures DanglingFrom(fsm, s, targets) == [] <==> forall t | t in targets :: t in fsm.all
  {
    if targets != [] {
      var rest := targets[..|targets| - 1];
      DanglingEmpty(fsm, s, rest);
      assert targets == rest + [targets[|targets| - 1]];
      assert forall t :: t in targets <==> t in rest || t == targets[|targets| - 1];
    }
  }

  method CheckEdgesOf<S(!new, ==)>(fsm: ConvergentFsm<S>, s: S) returns (defects: seq<FsmDefect<S>>)
    ensures defects == DanglingFrom(fsm, s, fsm.successors(s))
  {
    var targets := fsm.successors(s);
    defects := [];
    for j := 0 to |targets|
      invariant defects == DanglingFrom(fsm, s, targets[..j])
    {
      assert targets[..j + 1][..j] == targets[..j];
      if targets[j] !in fsm.all {
        defects := defects + [FsmDefect(DanglingEdge, Some(s), Some(targets[j]))];
      }
    }
    assert targets[..|targets|] == targets;
  }

  method CheckGraphClosed<S(!new, ==)>(fsm: ConvergentFsm<S>) returns (defects: seq<FsmDefect<S>>)
    ensures fsm.all != [] ==> defects == GraphDefects(fsm)
    ensures fsm.all != [] ==> forall d :: multiset(defects)[d] == TimesDangling(fsm, d)
    ensures fsm.all == [] ==> defects == [FsmDefect(EmptyStateSpace, None, None)]
  {
    hide DanglingFrom;
    defects := CheckStateSpaceNonEmpty(fsm);
    ghost var start := defects;
    ghost var f := s => DanglingFrom(fsm, s, fsm.successors(s));
    for i := 0 to |fsm.all|
      invariant defects == start + Collected(fsm.all[..i], f)
    {
      assert fsm.all[..i + 1][..i] == fsm.all[..i];
      var dangling := CheckEdgesOf(fsm, fsm.all[i]);
      defects := defects + dangling;
    }
    assert fsm.all[..|fsm.all|] == fsm.all;
    hide TimesDangling;
    GraphReports(fsm);
  }

  method CheckTerminalsSound<S(!new, ==)>(fsm: ConvergentFsm<S>) returns (defects: seq<FsmDefect<S>>)
    ensures fsm.all != [] ==> defects == TerminalsDefects(fsm)
    ensures fsm.all != [] ==> forall d :: multiset(defects)[d] == TimesTerminal(fsm, d)
    ensures fsm.all == [] ==> defects == [FsmDefect(EmptyStateSpace, None, None)]
  {
    defects := CheckStateSpaceNonEmpty(fsm);
    ghost var start := defects;
    ghost var f := s => TerminalDefects(fsm, s);
    for i := 0 to |fsm.all|
      invariant defects == start + Collected(fsm.all[..i], f)
    {
      var s := fsm.all[i];
      var noSuccessors := fsm.successors(s) == [];
      assert fsm.all[..i + 1][..i] == fsm.all[..i];
      if fsm.isTerminal(s) != noSuccessors {
        defects := defects + [FsmDefect(TerminalMismatch, Some(s), None)];
      }
      if fsm.isTerminal(s) && !fsm.isGoodTerminal(s) {
        defects := defects + [FsmDefect(BadTerminalSink, Some(s), None)];
      }
    }
    assert fsm.all[..|fsm.all|] == fsm.all;
    hide TimesTerminal;
    TerminalsReports(fsm);
  }

  method CheckNoTraps<S(!new, ==)>(fsm: ConvergentFsm<S>) returns (defects: seq<FsmDefect<S>>)
    ensures fsm.all != [] ==> defects == TrapsDefects(fsm)
    ensures fsm.all != [] ==> forall d :: multiset(defects)[d] == TimesTrapped(fsm, d)
    ensures fsm.all == [] ==> defects == [FsmDefect(EmptyStateSpace, None, None)]
  {
    defects := CheckStateSpaceNonEmpty(fsm);
    ghost var start := defects;
    ghost var f := s => TrapDefects(fsm, s);
    for i := 0 to |fsm.all|
      invariant defects == start + Collected(fsm.all[..i], f)
    {
      var s := fsm.all[i];
      assert fsm.all[..i + 1][..i] == fsm.all[..i];
      if !fsm.isTerminal(s) && fsm.successors(s) == [] {
        defects := defects + [FsmDefect(DeadEndTrap, Some(s), None)];
      }
    }
    assert fsm.all[..|fsm.all|] == fsm.all;
    hide TimesTrapped;
    TrapsReports(fsm);
  }

  method CheckAllConverge<S(!new, ==)>(fsm: ConvergentFsm<S>, ghost universe: set<S>)
    returns (defects: seq<FsmDefect<S>>)
    requires Members(fsm.all) <= universe && IsUniverse(fsm, universe)
    ensures fsm.all != [] ==> defects == StuckDefects(fsm)
    ensures fsm.all != [] ==> forall d :: multiset(defects)[d] == TimesStuck(fsm, d)
    ensures fsm.all == [] ==> defects == [FsmDefect(EmptyStateSpace, None, None)]
  {
    hide Converges, IsUniverse;
    defects := CheckStateSpaceNonEmpty(fsm);
    ghost var start := defects;
    ghost var f := s => ConvergenceDefects(fsm, s);
    for i := 0 to |fsm.all|
      invariant defects == start + Collected(fsm.all[..i], f)
    {
      var s := fsm.all[i];
      assert s in Members(fsm.all);
      assert fsm.all[..i + 1][..i] == fsm.all[..i];
      var reached := ReachesGoodTerminal(fsm, s, universe);
      if !reached {
        defects := defects + [FsmDefect(CannotConverge, Some(s), None)];
      }
    }
    assert fsm.all[..|fsm.all|] == fsm.all;
    hide TimesStuck;
    StuckReports(fsm);
  }

  /** Every defect of every check, in the order they are run. */
  ghost function AllDefects<S(!new)>(fsm: ConvergentFsm<S>): seq<FsmDefect<S>> {
    GraphDefects(fsm) + TerminalsDefects(fsm) + TrapsDefects(fsm) + StuckDefects(fsm)
  }

  /** No check finds anything exactly when the machine is well formed and every
      state can converge. */
  lemma NoDefectsIff<S(!new)>(fsm: ConvergentFsm<S>)
    requires fsm.all != []
    ensures AllDefects(fsm) == [] <==> Convergent(fsm)
  {
    hide Collected, DanglingFrom, Converges;
    CollectedEmpty(fsm.all, s => DanglingFrom(fsm, s, fsm.successors(s)));
    CollectedEmpty(fsm.all, s => TerminalDefects(fsm, s));
    CollectedEmpty(fsm.all, s => TrapDefects(fsm, s));
    CollectedEmpty(fsm.all, s => ConvergenceDefects(fsm, s));
    forall s | s in fsm.all
      ensures DanglingFrom(fsm, s, fsm.successors(s)) == [] <==> forall t | t in fsm.successors(s) :: t in fsm.all
    {
      DanglingEmpty(fsm, s, fsm.successors(s));
    }
  }

  lemma EmptyNotConvergent<S(!new)>(fsm: ConvergentFsm<S>)
    requires fsm.all == []
    ensures !Convergent(fsm)
  {
  }

  /** Ok exactly for a convergent machine; otherwise every defect of every check. */
  method AssertConvergentFsm<S(!new, ==)>(fsm: ConvergentFsm<S>, ghost universe: set<S>)
    returns (verdict: Result<(), seq<FsmDefect<S>>>)
    requires Members(fsm.all) <= universe && IsUniverse(fsm, universe)
    ensures verdict.Ok? <==> Convergent(fsm)
    ensures verdict.Err? ==>
              verdict.error == if fsm.all == [] then [FsmDefect(EmptyStateSpace, None, None)] else AllDefects(fsm)
    ensures verdict.Err? && fsm.all != [] ==>
              forall d :: multiset(verdict.error)[d] ==
                          TimesDangling(fsm, d) + TimesTerminal(fsm, d) + TimesTrapped(fsm, d) + TimesStuck(fsm, d)
  {
    hide GraphDefects, TerminalsDefects, TrapsDefects, StuckDefects, Convergent;
    hide TimesDangling, TimesTerminal, TimesTrapped, TimesStuck;
    var defects := CheckStateSpaceNonEmpty(fsm);
    if defects == [] {
      var closed := CheckGraphClosed(fsm);
      var terminals := CheckTerminalsSound(fsm);
      var traps := CheckNoTraps(fsm);
      var converge := CheckAllConverge(fsm, universe);
      defects := defects + closed + terminals + traps + converge;
      NoDefectsIff(fsm);
    } else {
      EmptyNotConvergent(fsm);
    }
    return if defects == [] then Ok(()) else Err(defects);
  }
}
