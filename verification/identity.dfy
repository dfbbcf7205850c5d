/** Alignment and frozen identity over whole runs. */
module Identity {
  import opened ExamApi
  import opened Webhook
  import opened Pass
  import opened System
  import opened Lifecycle
  import opened Alignment

  ghost predicate LinedUp(m: Machine, s: State) {
    Aligned(m.platform.domain, s.spec, s.c.status)
  }

  /** The webhook accepts no edit that would move a recorded entry away from its student. */
  lemma EditAligned(domain: string, before: Spec, after: Spec, st: Status, now: int)
    requires Aligned(domain, before, st)
    requires ValidateUpdate(st.phase, before, after, now).Accepted?
    ensures Aligned(domain, after, st)
  {
    hide ValidateUpdate;
    if Rank(st.phase) >= 1 {
      forall i | 0 <= i < |st.students| ensures GoodStudent(domain, after, i, st.students[i]) {
        assert GoodStudent(domain, before, i, st.students[i]);
      }
    }
  }

  lemma StepLinedUp(m: Machine, s: State, step: Step)
    requires LinedUp(m, s) && Enabled(m, s, step)
    ensures LinedUp(m, Apply(m, s, step)) && Frozen(s.c.status, Apply(m, s, step).c.status)
  {
    hide Reconcile, GoodStudent, GoodSpare, ValidateUpdate;
    match step
    case Edit(spec) =>
      if ValidateUpdate(s.c.status.phase, s.spec, spec, s.clock).Accepted? {
        EditAligned(m.platform.domain, s.spec, spec, s.c.status, s.clock);
      }
    case Reconciled(env, saved) => PassAligned(JobOf(m, s, env), s.c);
    case _ =>
  }

  /** In every run the lists stay aligned with the current spec; recorded identities never change. */
  lemma {:induction false} RunLinedUp(m: Machine, s: State, steps: seq<Step>)
    requires LinedUp(m, s) && Legal(m, s, steps)
    ensures LinedUp(m, Run(m, s, steps)) && Frozen(s.c.status, Run(m, s, steps).c.status)
    decreases |steps|
  {
    hide Apply, GoodStudent, GoodSpare;
    if steps != [] {
      var t := Apply(m, s, steps[0]);
      StepLinedUp(m, s, steps[0]);
      RunLinedUp(m, t, steps[1..]);
      FrozenTransitive(s.c.status, t.c.status, Run(m, t, steps[1..]).c.status);
    }
  }

  lemma InitialLinedUp(m: Machine, s: State)
    requires Initial(m, s)
    ensures LinedUp(m, s) && OnTime(s)
  {
  }
}
