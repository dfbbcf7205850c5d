/** Which lost writes leave a metric series of an old phase behind. */
module Stray {
  import opened Prelude
  import opened ExamApi
  import opened Timetable
  import opened Webhook
  import opened Objects
  import opened Store
  import opened Metrics
  import opened Oracle
  import opened Pass
  import opened System
  import opened Lifecycle
  import opened Identity
  import opened Tidiness
  import opened Wakeup
  import opened Recovery
  import opened Arrival
  import opened Telemetry

  /** The phase whose duration series stands after the step: that in which the last pass ended, lost or
      not; a teardown drops it, and one that fails drops at least that of the phase it leaves. */
  ghost function LastPhase(m: Machine, s: State, last: Option<Phase>, step: Step): Option<Phase> {
    if !step.Reconciled? then last
    else
      var j := JobOf(m, s, step.env);
      var o := Reconcile(j, s.c);
      if o.c.status.phase != TearingDown then Some(o.c.status.phase)
      else if !o.err || (s.c.status.phase != TearingDown && last == Some(s.c.status.phase)) then None
      else last
  }

  /** The phase of the last pass is recorded, or this pass begins or ends in it, or it tears down. */
  ghost predicate Mends(m: Machine, s: State, last: Option<Phase>, step: Step) {
    step.Reconciled? && last.Some? ==>
      var b, q := Begin(JobOf(m, s, step.env), s.c).status.phase, Reconcile(JobOf(m, s, step.env), s.c).c.status.phase;
      b == TearingDown || last.value in {s.c.status.phase, b, q}
  }

  ghost predicate AlwaysMended(m: Machine, s: State, last: Option<Phase>, steps: seq<Step>)
    decreases |steps|
  {
    steps == []
    || (Mends(m, s, last, steps[0])
        && AlwaysMended(m, Apply(m, s, steps[0]), LastPhase(m, s, last, steps[0]), steps[1..]))
  }

  /** The series of that phase is the only one. */
  ghost predicate StandsAlone(m: Machine, s: State, last: Option<Phase>) {
    && last !in {Some(Unset), Some(TearingDown)}
    && PhaseSeries(s.c.series, m.x) == if last.Some? then {PhaseDuration(m.x, last.value)} else {}
  }

  lemma FailedTeardown(j: Job, c: Ctx)
    requires Reconcile(j, c).c.status.phase == TearingDown && Reconcile(j, c).err
    ensures Begin(j, c).status.phase == TearingDown
    ensures PhaseSeries(Reconcile(j, c).c.series, j.x) == PhaseSeries(c.series, j.x) - Dropped(j, c)
  {
    hide ReconcileProvisioning, ReconcileReady, ReconcileUnlock, ReconcileLocked, ComputeSchedule, Summarize, DeleteNamespace;
    BeginSeries(j, c);
    PassPhase(j, c);
    BeginPlaces(j, c);
  }

  lemma AtMostOneAlone(m: Machine, s: State, last: Option<Phase>)
    requires StandsAlone(m, s, last)
    ensures AtMostOne(m, s)
  {
  }

  /** With one series to begin with, what a pass finds is tolerated exactly when it mends. */
  lemma MatchesIffMends(m: Machine, s: State, last: Option<Phase>, step: Step)
    requires StandsAlone(m, s, last) && HasEntry(s.c.status)
    ensures Matches(m, s, step) <==> Mends(m, s, last, step)
  {
    hide Reconcile, Begin, PhaseSeries;
    if step.Reconciled? {
      PassSeries(JobOf(m, s, step.env), s.c);
    }
  }

  lemma StepStandsAlone(m: Machine, s: State, last: Option<Phase>, step: Step)
    requires Enabled(m, s, step) && StandsAlone(m, s, last) && HasEntry(s.c.status) && Mends(m, s, last, step)
    ensures StandsAlone(m, Apply(m, s, step), LastPhase(m, s, last, step))
  {
    hide Reconcile, Begin, ValidateUpdate, PhaseSeries;
    match step
    case Reconciled(env, saved) =>
      var j := JobOf(m, s, env);
      PassSeries(j, s.c);
      BeginPlaces(j, s.c);
      if Reconcile(j, s.c).c.status.phase == TearingDown {
        if Reconcile(j, s.c).err {
          FailedTeardown(j, s.c);
        } else {
          NoSeriesNoPhase(Reconcile(j, s.c).c.series, m);
        }
      }
    case Elsewhere(store, series) => SameSeries(m, s, series);
    case _ =>
  }

  lemma NoSeriesNoPhase(series: set<Series>, m: Machine)
    requires forall e: Series :: e.exam == m.x ==> e !in series
    ensures PhaseSeries(series, m.x) == {}
  {
  }

  /** In a run that may lose any status writes the exam has at most one duration series all along if and
      only if every pass works in the phase where the last one ended, or finds that phase recorded. */
  lemma {:induction false} RunSingleIffMended(m: Machine, s: State, last: Option<Phase>, steps: seq<Step>)
    requires Legal(m, s, steps) && StandsAlone(m, s, last) && HasEntry(s.c.status)
    ensures AlwaysSingle(m, s, steps) <==> AlwaysMended(m, s, last, steps)
    decreases |steps|
  {
    hide Apply, AtMostOne, Matches, Mends, StandsAlone, LastPhase;
    AtMostOneAlone(m, s, last);
    if steps != [] {
      var t := Apply(m, s, steps[0]);
      StepSingleIff(m, s, steps[0]);
      MatchesIffMends(m, s, last, steps[0]);
      if AtMostOne(m, t) {
        StepStandsAlone(m, s, last, steps[0]);
        RunSingleIffMended(m, t, LastPhase(m, s, last, steps[0]), steps[1..]);
      }
    }
  }

  // Without edits.

  function Desired(s: State): Phase {
    DesiredPhase(s.c.status.phase, Some(ComputeSchedule(s.spec)), s.spec, s.clock)
  }

  /** Either nothing is recorded yet, the last pass found the exam pending, and provisioning has come due
      since; or the last pass entered Ready, and this one finds the gate shut. */
  ghost predicate Slips(m: Machine, s: State, last: Option<Phase>, step: Step) {
    step.Reconciled? && Desired(s) == Phase.Provisioning
    && ((last == Some(Pending) && s.c.status.phase == Unset)
        || (last == Some(Ready) && Reconcile(JobOf(m, s, step.env), s.c).c.status.phase != Ready))
  }

  ghost predicate NeverSlips(m: Machine, s: State, last: Option<Phase>, steps: seq<Step>)
    decreases |steps|
  {
    steps == []
    || (!Slips(m, s, last, steps[0])
        && NeverSlips(m, Apply(m, s, steps[0]), LastPhase(m, s, last, steps[0]), steps[1..]))
  }

  /** How far the last pass can be ahead of what is recorded. */
  ghost predicate Trails(s: State, last: Option<Phase>) {
    last.Some? ==>
      && last.value !in {Unset, TearingDown}
      && (last.value in {s.c.status.phase, Desired(s)}
          || (s.c.status.phase == Unset && last.value == Pending)
          || (Desired(s) == Phase.Provisioning && last.value == Ready))
  }

  lemma MendsIffNoSlip(m: Machine, s: State, last: Option<Phase>, step: Step)
    requires Trails(s, last)
    ensures Mends(m, s, last, step) <==> !Slips(m, s, last, step)
  {
    hide Reconcile, Begin, ComputeSchedule;
    if step.Reconciled? {
      BeginPlaces(JobOf(m, s, step.env), s.c);
      PassPhase(JobOf(m, s, step.env), s.c);
    }
  }

  lemma StepTrails(m: Machine, s: State, last: Option<Phase>, step: Step)
    requires Trails(s, last) && !step.Edit?
    ensures Trails(Apply(m, s, step), LastPhase(m, s, last, step))
  {
    hide Reconcile, Begin, ComputeSchedule;
    if step.Reconciled? {
      PassPhase(JobOf(m, s, step.env), s.c);
    }
  }

  lemma {:induction false} MendedIffNeverSlips(m: Machine, s: State, last: Option<Phase>, steps: seq<Step>)
    requires Trails(s, last) && forall i :: 0 <= i < |steps| ==> !steps[i].Edit?
    ensures AlwaysMended(m, s, last, steps) <==> NeverSlips(m, s, last, steps)
    decreases |steps|
  {
    hide Apply, Mends, Slips, Trails, LastPhase;
    if steps != [] {
      MendsIffNoSlip(m, s, last, steps[0]);
      StepTrails(m, s, last, steps[0]);
      MendedIffNeverSlips(m, Apply(m, s, steps[0]), LastPhase(m, s, last, steps[0]), steps[1..]);
    }
  }

  /** In a run from admission without edits only those two can leave a second series. */
  lemma UneditedSingleIff(m: Machine, s: State, steps: seq<Step>)
    requires Initial(m, s) && Legal(m, s, steps) && forall i :: 0 <= i < |steps| ==> !steps[i].Edit?
    ensures AlwaysSingle(m, s, steps) <==> NeverSlips(m, s, None, steps)
  {
    hide Legal, AlwaysSingle, AlwaysMended, NeverSlips;
    assert HasEntry(s.c.status);
    assert StandsAlone(m, s, None) by { NoSeriesNoPhase(s.c.series, m); }
    RunSingleIffMended(m, s, None, steps);
    MendedIffNeverSlips(m, s, None, steps);
  }

  // Both happen.

  lemma FirstPass(j: Job, c: Ctx)
    requires c.status == EmptyStatus
    ensures var q := Reconcile(j, c).c.status.phase;
            && PhaseSeries(c.series, j.x) - {PhaseDuration(j.x, Phase.Provisioning)} + {PhaseDuration(j.x, q)}
                 <= PhaseSeries(Reconcile(j, c).c.series, j.x)
            && if j.now < ComputeSchedule(j.spec).provision then q == Pending else q in {Phase.Provisioning, Ready}
    ensures Reconcile(j, c).c.status.phase != Ready ==>
              PhaseSeries(c.series, j.x) <= PhaseSeries(Reconcile(j, c).c.series, j.x)
  {
    hide Reconcile, Begin, PhaseSeries, ComputeSchedule;
    PassSeries(j, c);
    PassPhase(j, c);
    BeginPlaces(j, c);
  }

  /** The write of the first pass is lost, and the next comes when provisioning is due. */
  lemma MissedPendingReached(m: Machine, s: State, first: Env, elapsed: nat, env: Env)
    requires Initial(m, s) && first.Valid() && env.Valid()
    requires s.clock < ComputeSchedule(s.spec).provision <= s.clock + elapsed
    ensures var steps := [Reconciled(first, false), Tick(elapsed), Reconciled(env, true)];
            Legal(m, s, steps) && |PhaseSeries(Run(m, s, steps).c.series, m.x)| >= 2
  {
    hide Reconcile, ComputeSchedule, PhaseSeries, ValidSpec;
    var steps := [Reconciled(first, false), Tick(elapsed), Reconciled(env, true)];
    var t := Apply(m, s, steps[0]);
    var u := Apply(m, t, steps[1]);
    FirstPass(JobOf(m, s, first), s.c);
    FirstPass(JobOf(m, u, env), u.c);
    RunThree(m, s, steps[0], steps[1], steps[2]);
    assert Legal(m, s, steps) by { TwoSteps(m, t, steps[1..]); }
    var q := Reconcile(JobOf(m, u, env), u.c).c.status.phase;
    SubsetCardinality({PhaseDuration(m.x, Pending), PhaseDuration(m.x, q)}, PhaseSeries(Run(m, s, steps).c.series, m.x));
  }

  ghost function GateUnlisted(): (env: Env)
    ensures env.Valid()
  {
    Unhindered("z").(fault := site => if site == GateList then Refused else NoFault)
  }

  lemma UnlistedStaysShut(j: Job, c: Ctx)
    requires j.env.fault(GateList) != NoFault && c.status.phase == Unset
    ensures Reconcile(j, c).c.status.phase != Ready
  {
    hide ProvisionStudents, ProvisionSpares, Cleanup, ValidSlugs, NamespaceObject, Summarize, ComputeSchedule;
    var b := Begin(j, c);
    BeginPlaces(j, c);
    if b.status.phase == Phase.Provisioning {
      var c0 := b.(store := Create(b.store, NamespaceKey(j.ns), NamespaceObject(j.x), j.env.fault(NamespaceCreate)).store);
      StudentsKeepPhase(j, c0, 0, true);
      var students := ProvisionStudents(j, c0, 0, true);
      SparesKeepPhase(j, students.c, 0, students.healthy);
    }
  }

  /** The write of the pass that enters Ready is lost, and the next finds the gate shut. */
  lemma ShutGateReached(m: Machine, s: State) returns (steps: seq<Step>)
    requires m.ns != "" && Initial(m, s) && DistinctIDs(s.spec)
    ensures Legal(m, s, steps) && forall i :: 0 <= i < |steps| ==> !steps[i].Edit?
    ensures Run(m, s, steps).c.status.phase == Phase.Provisioning
    ensures {PhaseDuration(m.x, Ready), PhaseDuration(m.x, Phase.Provisioning)} <= PhaseSeries(Run(m, s, steps).c.series, m.x)
  {
    hide Reconcile, ComputeSchedule, PhaseSeries, Run, Legal, Initial, Restored, Unhindered, Tidy, LinedUp;
    var before := AboutToEnter(m, s);
    var t := Run(m, s, before);
    var last := [Reconciled(Unhindered("z"), false), Reconciled(GateUnlisted(), true)];
    var u := Apply(m, t, last[0]);
    FirstPass(JobOf(m, t, Unhindered("z")), t.c);
    FirstPass(JobOf(m, u, GateUnlisted()), u.c);
    UnlistedStaysShut(JobOf(m, u, GateUnlisted()), u.c);
    TwoSteps(m, t, last);
    RunAppend(m, s, before, last);
    steps := before + last;
  }
}
