/** Phases over whole runs: a walk along one chain, tied to the clock and to the current spec. */
module Lifecycle {
  import opened Prelude
  import opened ExamApi
  import opened Timetable
  import opened Webhook
  import opened Objects
  import opened Store
  import opened Oracle
  import opened Pass
  import opened System

  /** The phase a pass from `p` may end in. */
  predicate PhaseStep(p: Phase, q: Phase) {
    match p
    case Unset => q in {Pending, Phase.Provisioning, Ready}
    case Pending => q in {Pending, Phase.Provisioning, Ready}
    case Provisioning => q in {Phase.Provisioning, Ready}
    case Ready => q in {Ready, Phase.Unlocked}
    case Unlocked => q in {Phase.Unlocked, Phase.Locked}
    case Locked => q in {Phase.Locked, TearingDown}
    case TearingDown => q == TearingDown
  }

  lemma ProvisioningPhase(j: Job, c: Ctx)
    requires c.status.phase == Phase.Provisioning
    ensures ReconcileProvisioning(j, c).c.status.phase in {Phase.Provisioning, Ready}
  {
    hide Cleanup, AllInstancesHealthy, ProvisionStudents, ProvisionSpares;
    var made := Create(c.store, NamespaceKey(j.ns), NamespaceObject(j.x), j.env.fault(NamespaceCreate));
    var c0 := c.(store := made.store);
    StudentsKeepPhase(j, c0, 0, true);
    var students := ProvisionStudents(j, c0, 0, true);
    SparesKeepPhase(j, students.c, 0, students.healthy);
  }

  lemma {:induction false} StudentsKeepPhase(j: Job, c: Ctx, i: nat, healthy: bool)
    requires i <= |j.spec.students|
    ensures var r := ProvisionStudents(j, c, i, healthy).c;
            r.status == c.status.(students := r.status.students) && r.mails == c.mails
    decreases |j.spec.students| - i
  {
    hide ProvisionInstance, FindStudentSlug;
    if i < |j.spec.students| && FindStudentSlug(j, c, i).Some? {
      var slug := FindStudentSlug(j, c, i).value;
      var ok := !ProvisionInstance(j, c.store, StudentAt(i), j.spec.students[i].id, slug).err;
      StudentsKeepPhase(j, ProvisionStudent(j, c, i, slug), i + 1, healthy && ok);
    }
  }

  lemma {:induction false} SparesKeepPhase(j: Job, c: Ctx, i: nat, healthy: bool)
    ensures var r := ProvisionSpares(j, c, i, healthy).c;
            r.status == c.status.(spares := r.status.spares) && r.mails == c.mails
    decreases j.spec.spares - i
  {
    hide ProvisionInstance, FindSpareSlug;
    if i < j.spec.spares && FindSpareSlug(j, c, i).Some? {
      var slug := FindSpareSlug(j, c, i).value;
      var ok := !ProvisionInstance(j, c.store, SpareAt(i), "", slug).err;
      SparesKeepPhase(j, ProvisionSpare(j, c, i, slug), i + 1, healthy && ok);
    }
  }

  /** The phase after a pass is the desired one, or Ready when the gate opened in that pass. */
  lemma PassPhase(j: Job, c: Ctx)
    ensures var q := Reconcile(j, c).c.status.phase;
            var desired := DesiredPhase(c.status.phase, Some(ComputeSchedule(j.spec)), j.spec, j.now);
            && (q == desired || (desired == Phase.Provisioning && q == Ready))
            && PhaseStep(c.status.phase, q)
  {
    hide ReconcileProvisioning, EnforceFrom, DeleteIngresses, NextWake, Summarize, ComputeSchedule;
    var b := Begin(j, c);
    if b.status.phase == Phase.Provisioning {
      ProvisioningPhase(j, b);
    }
  }

  // Single steps.

  lemma StepPhase(m: Machine, s: State, step: Step)
    ensures var t := Apply(m, s, step);
            && t.clock >= s.clock
            && (!step.Edit? ==> t.spec == s.spec)
            && (!step.Reconciled? || !step.saved ==> t.c.status == s.c.status)
            && (t.c.status.phase == s.c.status.phase || PhaseStep(s.c.status.phase, t.c.status.phase))
            && (step.Reconciled? && step.saved && PastBoundary(s) && s.c.status.phase in {Ready, Phase.Unlocked, Phase.Locked} ==>
                  Rank(t.c.status.phase) == Rank(s.c.status.phase) + 1)
  {
    hide Reconcile, ComputeSchedule, ValidateUpdate;
    if step.Reconciled? {
      PassPhase(JobOf(m, s, step.env), s.c);
    }
  }

  /** Every instant of the exam's schedule has passed. */
  predicate PastBoundary(s: State) {
    var t := ComputeSchedule(s.spec);
    s.spec.schedule.unlock <= s.clock && t.lock <= s.clock && t.deadline <= s.clock
  }

  /** The recorded phase never runs ahead of the clock, whatever the spec has become since. */
  ghost predicate OnTime(s: State) {
    && ValidSpec(s.spec)
    && (Rank(s.c.status.phase) >= 3 ==> s.spec.schedule.unlock <= s.clock)
    && (Rank(s.c.status.phase) >= 4 ==> LockTime(s.spec.schedule) <= s.clock)
  }

  lemma StepOnTime(m: Machine, s: State, step: Step)
    requires OnTime(s)
    ensures OnTime(Apply(m, s, step))
  {
    hide Reconcile, LockTime;
    if step.Reconciled? {
      PassPhase(JobOf(m, s, step.env), s.c);
    }
  }

  // Runs.

  /** Over every interleaving of edits, ticks, cluster events, passes and lost status writes. */
  lemma {:induction false} RunOnTime(m: Machine, s: State, steps: seq<Step>)
    requires OnTime(s)
    ensures OnTime(Run(m, s, steps))
    decreases |steps|
  {
    if steps != [] {
      StepOnTime(m, s, steps[0]);
      RunOnTime(m, Apply(m, s, steps[0]), steps[1..]);
    }
  }

  lemma {:induction false} RunNonDecreasing(m: Machine, s: State, steps: seq<Step>)
    ensures var t := Run(m, s, steps);
            Rank(s.c.status.phase) <= Rank(t.c.status.phase) && s.clock <= t.clock
            && (s.c.status.phase == TearingDown ==> t.c.status.phase == TearingDown)
    decreases |steps|
  {
    hide Apply;
    if steps != [] {
      StepPhase(m, s, steps[0]);
      RunNonDecreasing(m, Apply(m, s, steps[0]), steps[1..]);
    }
  }

  /** No phase between Ready and the last one reached is skipped: the run is in it at some point. */
  lemma {:induction false} NeverSkips(m: Machine, s: State, steps: seq<Step>, p: Phase) returns (k: nat)
    requires 2 <= Rank(p)
    requires Rank(s.c.status.phase) <= Rank(p) <= Rank(Run(m, s, steps).c.status.phase)
    ensures k <= |steps| && Run(m, s, steps[..k]).c.status.phase == p
    decreases |steps|
  {
    hide Apply;
    if s.c.status.phase == p {
      k := 0;
    } else {
      assert steps != [];
      var t := Apply(m, s, steps[0]);
      StepPhase(m, s, steps[0]);
      k := NeverSkips(m, t, steps[1..], p);
      k := k + 1;
      assert steps[..k][1..] == steps[1..][..k - 1];
    }
  }

  /** How often the recorded phase changes along a run. */
  function PhaseChanges(m: Machine, s: State, steps: seq<Step>): nat
    decreases |steps|
  {
    if steps == [] then 0
    else
      var t := Apply(m, s, steps[0]);
      (if t.c.status.phase != s.c.status.phase then 1 else 0) + PhaseChanges(m, t, steps[1..])
  }

  function SavedPasses(steps: seq<Step>): nat {
    if steps == [] then 0
    else (if steps[0].Reconciled? && steps[0].saved then 1 else 0) + SavedPasses(steps[1..])
  }

  lemma {:induction false} ChangesAreRanks(m: Machine, s: State, steps: seq<Step>)
    requires Rank(s.c.status.phase) >= 2
    ensures Rank(Run(m, s, steps).c.status.phase) == Rank(s.c.status.phase) + PhaseChanges(m, s, steps)
    decreases |steps|
  {
    hide Apply;
    if steps != [] {
      StepPhase(m, s, steps[0]);
      ChangesAreRanks(m, Apply(m, s, steps[0]), steps[1..]);
    }
  }

  lemma {:induction false} PassesAdvance(m: Machine, s: State, steps: seq<Step>)
    requires PastBoundary(s) && Rank(s.c.status.phase) >= 2
    requires forall i :: 0 <= i < |steps| ==> !steps[i].Edit?
    ensures Rank(Run(m, s, steps).c.status.phase) >= if Rank(s.c.status.phase) + SavedPasses(steps) < 5
                                                     then Rank(s.c.status.phase) + SavedPasses(steps) else 5
    decreases |steps|
  {
    hide Apply, ComputeSchedule;
    if steps != [] {
      StepPhase(m, s, steps[0]);
      PassesAdvance(m, Apply(m, s, steps[0]), steps[1..]);
    }
  }

  /** Take a Ready exam at any time, let anything happen until its schedule is over, edits included, and
      then let three passes be saved with no further edit: the exam is torn down, and its phase has
      changed exactly three times in all. */
  lemma ReadyReachesTearingDown(m: Machine, s: State, before: seq<Step>, after: seq<Step>)
    requires s.c.status.phase == Ready && PastBoundary(Run(m, s, before))
    requires forall i :: 0 <= i < |after| ==> !after[i].Edit?
    requires SavedPasses(after) >= 3
    ensures Run(m, s, before + after).c.status.phase == TearingDown
    ensures PhaseChanges(m, s, before + after) == 3
  {
    hide Apply, ComputeSchedule, PastBoundary;
    RunAppend(m, s, before, after);
    RunNonDecreasing(m, s, before);
    PassesAdvance(m, Run(m, s, before), after);
    ChangesAreRanks(m, s, before + after);
  }

  lemma {:induction false} NoEditNoChange(m: Machine, s: State, steps: seq<Step>)
    requires forall i :: 0 <= i < |steps| ==> !steps[i].Edit?
    ensures Run(m, s, steps).spec == s.spec
    decreases |steps|
  {
    hide Apply;
    if steps != [] {
      StepPhase(m, s, steps[0]);
      NoEditNoChange(m, Apply(m, s, steps[0]), steps[1..]);
    }
  }

  /** Without any edit it is enough that the clock gets past the three instants of the spec as it is now. */
  lemma UneditedExamEnds(m: Machine, s: State, before: seq<Step>, after: seq<Step>)
    requires s.c.status.phase == Ready
    requires forall i :: 0 <= i < |before + after| ==> !(before + after)[i].Edit?
    requires var t, clock := ComputeSchedule(s.spec), Run(m, s, before).clock;
             s.spec.schedule.unlock <= clock && t.lock <= clock && t.deadline <= clock
    requires SavedPasses(after) >= 3
    ensures Run(m, s, before + after).c.status.phase == TearingDown
    ensures PhaseChanges(m, s, before + after) == 3
  {
    hide Run, PhaseChanges, ComputeSchedule;
    var all := before + after;
    forall i | 0 <= i < |before| ensures !before[i].Edit? { assert all[i] == before[i]; }
    forall i | 0 <= i < |after| ensures !after[i].Edit? { assert all[|before| + i] == after[i]; }
    NoEditNoChange(m, s, before);
    ReadyReachesTearingDown(m, s, before, after);
  }
}
