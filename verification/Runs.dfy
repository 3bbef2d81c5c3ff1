/** Putting runs together. */
module Runs {
  import opened Channel
  import opened Runtime

  lemma {:induction false} RunsJoin(s: State, first: seq<Step>, second: seq<Step>)
    requires Possible(s, first) && Possible(After(s, first), second)
    ensures Possible(s, first + second) && After(s, first + second) == After(After(s, first), second)
    decreases |first|
  {
    if first == [] {
      assert first + second == second;
    } else {
      assert (first + second)[0] == first[0] && (first + second)[1..] == first[1..] + second;
      RunsJoin(Apply(s, first[0]), first[1..], second);
    }
  }

  lemma OneStep(s: State, step: Step)
    requires Enabled(s, step)
    ensures Possible(s, [step]) && After(s, [step]) == Apply(s, step)
  {
    assert [step][1..] == [];
    assert Possible(Apply(s, step), []);
  }

  lemma Extend(s0: State, run: seq<Step>, step: Step)
    requires Possible(s0, run) && Enabled(After(s0, run), step)
    ensures Possible(s0, run + [step]) && After(s0, run + [step]) == Apply(After(s0, run), step)
  {
    OneStep(After(s0, run), step);
    RunsJoin(s0, run, [step]);
  }

  /** A step of a sender that has enqueued. */
  predicate BySender(step: Step) {
    step.ByOther? && (step.w.SendCount? || step.w.SendTag? || step.w.SendWake?)
  }

  /** A step of the reactor's thread. */
  predicate ByReactor(step: Step) {
    step.ByOther? && (step.w.Collect? || step.w.HandleEvent? || step.w.DrainPop? || step.w.LookupTag?)
  }

  /** The rest of a send, from its count on. */
  lemma SendIsRun(s: State, a: Sender) returns (run: seq<Step>)
    requires CanAdvance(s, a) && s.net.sends[a].Enqueued?
    ensures Possible(s, run) && forall step | step in run :: BySender(step)
    ensures var s' := After(s, run);
      && s'.sched == s.sched && s'.tasks == s.tasks && s'.execs == s.execs && s'.net.closed == s.net.closed
      && s'.net.joins == s.net.joins
      && s'.net.chans == s.net.chans[s.net.sends[a].tag := CountOne(s.net.chans[s.net.sends[a].tag])]
      && s'.net.sends == s.net.sends - {a}
      && s'.react == s.react.(ring := s.react.ring + [s.net.sends[a].tag], mio := true)
  {
    Extend(s, [], ByOther(SendCount(a)));
    run := [] + [ByOther(SendCount(a))];
    Extend(s, run, ByOther(SendTag(a)));
    run := run + [ByOther(SendTag(a))];
    Extend(s, run, ByOther(SendWake(a)));
    run := run + [ByOther(SendWake(a))];
    assert After(s, run).net.sends == s.net.sends - {a};
  }
}
