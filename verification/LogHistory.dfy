/** The emitted events are the whole history of the phases. */
module LogHistory {
  import opened Types
  import opened Driver
  import opened Machine
  import opened Interference

  /** The phases after replaying `log` over `start`. */
  function Replay(start: Phases, log: seq<TransitionEvent>): Phases {
    if log == [] then start
    else
      var e := log[|log| - 1];
      Replay(start, log[..|log| - 1])[e.id := e.to]
  }

  /** Every event leaves the phase the replay so far has put its job in, along a
      cell of the transition table, to a different phase. */
  ghost predicate Chained(start: Phases, log: seq<TransitionEvent>) {
    forall i | 0 <= i < |log| ::
      && log[i].from == PhaseIn(Replay(start, log[..i]), log[i].id)
      && log[i].from != log[i].to
      && LegalMove(log[i].from, log[i].to)
      && !log[i].to.WaitingForOperator?
  }

  function Since(s0: State, s: State): seq<TransitionEvent> {
    if |s0.log| <= |s.log| then s.log[|s0.log|..] else []
  }

  /** The log grew from that of `s0`, and what was added explains the phases. */
  ghost predicate Recorded(s0: State, s: State) {
    && s.log == s0.log + Since(s0, s)
    && Chained(s0.phases, Since(s0, s))
    && forall id :: s.PhaseOf(id) == PhaseIn(Replay(s0.phases, Since(s0, s)), id)
  }

  lemma ChainedExtend(start: Phases, log: seq<TransitionEvent>, e: TransitionEvent)
    requires Chained(start, log)
    requires e.from == PhaseIn(Replay(start, log), e.id)
    requires e.from != e.to && LegalMove(e.from, e.to) && !e.to.WaitingForOperator?
    ensures Chained(start, log + [e])
    ensures Replay(start, log + [e]) == Replay(start, log)[e.id := e.to]
  {
    var all := log + [e];
    assert all[..|log|] == log;
    forall i | 0 <= i < |all|
      ensures && all[i].from == PhaseIn(Replay(start, all[..i]), all[i].id)
              && all[i].from != all[i].to
              && LegalMove(all[i].from, all[i].to)
              && !all[i].to.WaitingForOperator?
    {
      if i < |log| {
        assert all[..i] == log[..i];
        assert all[i] == log[i];
      }
    }
  }

  lemma RecordedLogged(env: Env, s0: State, s: State, s': State)
    requires Recorded(s0, s) && Logged(env, s, s')
    ensures Recorded(s0, s')
  {
    hide Replay, Chained;
    var e := s'.log[|s.log|];
    assert s'.log == s.log + [e];
    assert Since(s0, s') == Since(s0, s) + [e];
    ChainedExtend(s0.phases, Since(s0, s), e);
    forall id ensures s'.PhaseOf(id) == PhaseIn(Replay(s0.phases, Since(s0, s')), id) {
      assert s.PhaseOf(id) == PhaseIn(Replay(s0.phases, Since(s0, s)), id);
    }
  }

  lemma RecordedSilent(s0: State, s: State, s': State)
    requires Recorded(s0, s) && Silent(s, s')
    ensures Recorded(s0, s')
  {
    forall id ensures s'.PhaseOf(id) == PhaseIn(Replay(s0.phases, Since(s0, s')), id) {
      assert s'.PhaseOf(id) == s.PhaseOf(id);
    }
  }

  lemma RecordedKept(env: Env, s0: State, m: Mach, step: Step)
    requires Remembers(m) && Next(env, m, step).Some?
    requires Recorded(s0, m.s)
    ensures Recorded(s0, Next(env, m, step).value.s)
  {
    StepEffect(env, m, step);
    if step.Fire? || step.Operate? {
      RecordedLogged(env, s0, m.s, Next(env, m, step).value.s);
    } else {
      RecordedSilent(s0, m.s, Next(env, m, step).value.s);
    }
  }

  lemma {:induction false} RunRecorded(env: Env, s0: State, m: Mach, steps: seq<Step>)
    requires Remembers(m) && Recorded(s0, m.s) && Run(env, m, steps).Some?
    ensures Recorded(s0, Run(env, m, steps).value.s)
    decreases |steps|
  {
    if steps != [] {
      RememberingStep(env, m, steps);
      RecordedKept(env, s0, m, steps[0]);
      RunRecorded(env, s0, Next(env, m, steps[0]).value, steps[1..]);
    }
  }

  lemma RememberingStep(env: Env, m: Mach, steps: seq<Step>)
    requires Remembers(m) && steps != [] && Run(env, m, steps).Some?
    ensures Next(env, m, steps[0]).Some? && Remembers(Next(env, m, steps[0]).value)
    ensures Run(env, m, steps) == Run(env, Next(env, m, steps[0]).value, steps[1..])
  {
    RemembersKept(env, m, steps[0]);
  }

  /** Over any interleaving of ticks, operator moves and registrations, replaying
      the new events over the phases at the start gives the phases at the end. */
  lemma LogIsHistory(env: Env, s0: State, steps: seq<Step>)
    requires Run(env, Mach(s0, Idle), steps).Some?
    ensures Recorded(s0, Run(env, Mach(s0, Idle), steps).value.s)
  {
    assert Since(s0, s0) == [];
    RunRecorded(env, s0, Mach(s0, Idle), steps);
  }

  /** An event of a job no operator holds is the driver's, with the reason its move
      demands; any other is one of the operator's steps, with that step's own reason. */
  predicate Explained(e: TransitionEvent, steps: seq<Step>) {
    if e.from.OperatorOnly() then
      exists k :: 0 <= k < |steps| && steps[k].Operate?
        && steps[k].id == e.id && steps[k].target == e.to && steps[k].reason == e.reason
    else ReasonFits(e)
  }

  lemma StepExplained(env: Env, m: Mach, step: Step)
    requires Remembers(m) && Next(env, m, step).Some?
    ensures var s, s' := m.s, Next(env, m, step).value.s;
            && |s.log| <= |s'.log| && s'.log[..|s.log|] == s.log
            && forall i | |s.log| <= i < |s'.log| :: Explained(s'.log[i], [step])
  {
    StepEffect(env, m, step);
    hide Next, Remembers, ReasonFits;
    assert [step][0] == step;
  }

  lemma ExplainedByMore(e: TransitionEvent, step: Step, rest: seq<Step>)
    requires Explained(e, [step]) || Explained(e, rest)
    ensures Explained(e, [step] + rest)
  {
    var steps := [step] + rest;
    if e.from.OperatorOnly() {
      if Explained(e, [step]) {
        assert steps[0] == step;
      } else {
        var k :| 0 <= k < |rest| && rest[k].Operate? && rest[k].id == e.id && rest[k].target == e.to
                 && rest[k].reason == e.reason;
        assert steps[k + 1] == rest[k];
      }
    }
  }

  lemma {:induction false} RunExplained(env: Env, m: Mach, steps: seq<Step>)
    requires Remembers(m) && Run(env, m, steps).Some?
    ensures var s, s' := m.s, Run(env, m, steps).value.s;
            && |s.log| <= |s'.log| && s'.log[..|s.log|] == s.log
            && forall i | |s.log| <= i < |s'.log| :: Explained(s'.log[i], steps)
    decreases |steps|
  {
    hide Explained, Next, Remembers;
    if steps != [] {
      var m1, s' := Next(env, m, steps[0]).value, Run(env, m, steps).value.s;
      RememberingStep(env, m, steps);
      StepExplained(env, m, steps[0]);
      RunExplained(env, m1, steps[1..]);
      assert steps == [steps[0]] + steps[1..];
      forall i | |m.s.log| <= i < |s'.log| ensures Explained(s'.log[i], steps) {
        assert i < |m1.s.log| ==> s'.log[i] == m1.s.log[i];
        ExplainedByMore(s'.log[i], steps[0], steps[1..]);
      }
    }
  }

  /** Over any interleaving every new event is accounted for: by the move the driver
      made, or by the operator who made it. */
  lemma EventsExplained(env: Env, s0: State, steps: seq<Step>)
    requires Run(env, Mach(s0, Idle), steps).Some?
    ensures forall e | e in Since(s0, Run(env, Mach(s0, Idle), steps).value.s) :: Explained(e, steps)
  {
    hide Explained;
    RunExplained(env, Mach(s0, Idle), steps);
  }

  /** Consecutive events of one job chain: the later leaves where the earlier went. */
  lemma {:induction false} ReplayedPhase(start: Phases, log: seq<TransitionEvent>, i: nat, j: nat)
    requires i < j <= |log|
    requires forall k | i < k < j :: log[k].id != log[i].id
    ensures PhaseIn(Replay(start, log[..j]), log[i].id) == log[i].to
    decreases j
  {
    assert log[..j][..j - 1] == log[..j - 1];
    if i < j - 1 {
      ReplayedPhase(start, log, i, j - 1);
    }
  }

  lemma EventsChain(start: Phases, log: seq<TransitionEvent>, i: nat, j: nat)
    requires Chained(start, log)
    requires i < j < |log| && log[j].id == log[i].id
    requires forall k | i < k < j :: log[k].id != log[i].id
    ensures log[j].from == log[i].to
  {
    ReplayedPhase(start, log, i, j);
  }

  lemma {:induction false} NoOneEntersWaiting(start: Phases, log: seq<TransitionEvent>, id: JobId)
    requires Chained(start, log)
    requires !PhaseIn(start, id).WaitingForOperator?
    ensures !PhaseIn(Replay(start, log), id).WaitingForOperator?
    decreases |log|
  {
    if log != [] {
      var before := log[..|log| - 1];
      assert forall i | 0 <= i < |before| :: before[i] == log[i] && before[..i] == log[..i];
      NoOneEntersWaiting(start, before, id);
    }
  }

  /** WaitingForOperator is a phase a job can only start in (by a restore): no run
      of ticks, operator moves and registrations ever puts a job there. */
  lemma WaitingUnreachable(env: Env, s0: State, steps: seq<Step>, id: JobId)
    requires Run(env, Mach(s0, Idle), steps).Some?
    requires !s0.PhaseOf(id).WaitingForOperator?
    ensures !Run(env, Mach(s0, Idle), steps).value.s.PhaseOf(id).WaitingForOperator?
  {
    LogIsHistory(env, s0, steps);
    NoOneEntersWaiting(s0.phases, Since(s0, Run(env, Mach(s0, Idle), steps).value.s), id);
  }
}
