/** Metric series follow the exam: one duration series for the current phase, none after teardown. */
module Telemetry {
  import opened Prelude
  import opened ExamApi
  import opened Timetable
  import opened Webhook
  import opened Objects
  import opened Store
  import opened Metrics
  import opened Oracle
  import opened Pass
  import opened System
  import opened Lifecycle
  import opened Wakeup
  import opened Recovery
  import opened Arrival

  lemma {:induction false} StudentsSeries(j: Job, c: Ctx, i: nat, healthy: bool)
    requires i <= |j.spec.students|
    ensures PhaseSeries(ProvisionStudents(j, c, i, healthy).c.series, j.x) == PhaseSeries(c.series, j.x)
    decreases |j.spec.students| - i
  {
    hide ProvisionInstance, FindStudentSlug;
    if i < |j.spec.students| && FindStudentSlug(j, c, i).Some? {
      var slug := FindStudentSlug(j, c, i).value;
      var d := ProvisionStudent(j, c, i, slug);
      assert PhaseSeries(d.series, j.x) == PhaseSeries(c.series, j.x);
      var ok := !ProvisionInstance(j, c.store, StudentAt(i), j.spec.students[i].id, slug).err;
      StudentsSeries(j, d, i + 1, healthy && ok);
    }
  }

  lemma {:induction false} SparesSeries(j: Job, c: Ctx, i: nat, healthy: bool)
    ensures PhaseSeries(ProvisionSpares(j, c, i, healthy).c.series, j.x) == PhaseSeries(c.series, j.x)
    decreases j.spec.spares - i
  {
    hide ProvisionInstance, FindSpareSlug;
    if i < j.spec.spares && FindSpareSlug(j, c, i).Some? {
      var slug := FindSpareSlug(j, c, i).value;
      var d := ProvisionSpare(j, c, i, slug);
      assert PhaseSeries(d.series, j.x) == PhaseSeries(c.series, j.x);
      var ok := !ProvisionInstance(j, c.store, SpareAt(i), "", slug).err;
      SparesSeries(j, d, i + 1, healthy && ok);
    }
  }

  lemma ProvisioningSeries(j: Job, c: Ctx)
    requires c.status.phase == Phase.Provisioning
    ensures var o := ReconcileProvisioning(j, c).c;
            PhaseSeries(o.series, j.x) == PhaseSeries(c.series, j.x)
              - (if o.status.phase == Ready then {PhaseDuration(j.x, Phase.Provisioning)} else {})
    ensures var o := ReconcileProvisioning(j, c).c;
            o.status.phaseEntry == if o.status.phase == Ready then Some(j.now) else c.status.phaseEntry
  {
    hide ProvisionStudents, ProvisionSpares, Cleanup, AllInstancesHealthy, ValidSlugs, NamespaceObject, SpareURLsOf;
    var made := Create(c.store, NamespaceKey(j.ns), NamespaceObject(j.x), j.env.fault(NamespaceCreate));
    var c0 := c.(store := made.store);
    StudentsSeries(j, c0, 0, true);
    StudentsKeepPhase(j, c0, 0, true);
    var students := ProvisionStudents(j, c0, 0, true);
    SparesSeries(j, students.c, 0, students.healthy);
    SparesKeepPhase(j, students.c, 0, students.healthy);
  }

  lemma OtherHandlersSeries(j: Job, c: Ctx)
    requires c.status.phase in {Pending, Ready, Phase.Unlocked, Phase.Locked}
    ensures var o := Dispatch(j, c).c;
            PhaseSeries(o.series, j.x) == PhaseSeries(c.series, j.x) && o.status.phaseEntry == c.status.phaseEntry
            && o.status.phase == c.status.phase
  {
    hide EnforceFrom, Entries, NextWake, MailDue, DryRunDue, FailedMails, CountStudents, DeleteIngresses,
         MarkStudents, MarkSpares;
  }

  lemma BeginSeries(j: Job, c: Ctx)
    ensures PhaseSeries(Begin(j, c).series, j.x) == PhaseSeries(c.series, j.x)
              - (if Begin(j, c).status.phase != c.status.phase && c.status.phase != Unset
                 then {PhaseDuration(j.x, c.status.phase)} else {})
    ensures c.status.phase == Unset || c.status.phaseEntry.Some? ==>
              Begin(j, c).status.phaseEntry.Some?
  {
    hide ComputeSchedule;
  }

  lemma FinishSeries(j: Job, c: Ctx)
    requires c.status.phase != TearingDown && c.status.phaseEntry.Some?
    ensures PhaseSeries(Finish(j, c).series, j.x) == PhaseSeries(c.series, j.x) + {PhaseDuration(j.x, c.status.phase)}
  {
    hide Summarize;
  }

  /** The duration series that a pass removes because it leaves their phase. */
  ghost function Dropped(j: Job, c: Ctx): set<Series> {
    var p, b, q := c.status.phase, Begin(j, c).status.phase, Reconcile(j, c).c.status.phase;
    (if b != p && p != Unset then {PhaseDuration(j.x, p)} else {})
    + (if b == Phase.Provisioning && q == Ready then {PhaseDuration(j.x, Phase.Provisioning)} else {})
  }

  /** What a pass does to the phase-duration series, from any state whatever. */
  lemma PassSeries(j: Job, c: Ctx)
    requires c.status.phase != Unset ==> c.status.phaseEntry.Some?
    ensures var o := Reconcile(j, c);
            var q := o.c.status.phase;
            var left := PhaseSeries(c.series, j.x) - Dropped(j, c);
            && q != Unset && o.c.status.phaseEntry.Some?
            && (q == Begin(j, c).status.phase || (Begin(j, c).status.phase == Phase.Provisioning && q == Ready))
            && (q != TearingDown ==> PhaseSeries(o.c.series, j.x) == left + {PhaseDuration(j.x, q)})
            && (q == TearingDown ==> PhaseSeries(o.c.series, j.x) <= left)
            && (q == TearingDown && !o.err ==> forall e: Series :: e.exam == j.x ==> e !in o.c.series)
  {
    hide ReconcileProvisioning, ReconcileReady, ReconcileUnlock, ReconcileLocked, ComputeSchedule, Summarize;
    var b := Begin(j, c);
    BeginPlaces(j, c);
    BeginSeries(j, c);
    if b.status.phase != TearingDown {
      HandlerSeries(j, b);
      FinishSeries(j, Dispatch(j, b).c);
    }
  }

  lemma HandlerSeries(j: Job, b: Ctx)
    requires b.status.phase !in {Unset, TearingDown} && b.status.phaseEntry.Some?
    ensures var o := Dispatch(j, b).c;
            && o.status.phaseEntry.Some?
            && (o.status.phase == b.status.phase || (b.status.phase == Phase.Provisioning && o.status.phase == Ready))
            && PhaseSeries(o.series, j.x) == PhaseSeries(b.series, j.x)
                 - (if b.status.phase == Phase.Provisioning && o.status.phase == Ready
                    then {PhaseDuration(j.x, Phase.Provisioning)} else {})
  {
    hide ReconcileProvisioning, ReconcileReady, ReconcileUnlock, ReconcileLocked;
    if b.status.phase == Phase.Provisioning {
      ProvisioningPhase(j, b);
      ProvisioningSeries(j, b);
    } else {
      OtherHandlersSeries(j, b);
    }
  }

  /** What else a pass adds: the gauges of an exam that is not torn down, and a transition for each change of
      phase; and that a change of phase is dated. */
  lemma PassCounts(j: Job, c: Ctx)
    ensures var o := Reconcile(j, c);
            var p, b, q := c.status.phase, Begin(j, c).status.phase, o.c.status.phase;
            && (q != TearingDown ==>
                  && {OfExam(SecondsUntilUnlock, j.x), OfExam(SecondsUntilLock, j.x), OfExam(InstancesTotal, j.x),
                      OfExam(InstancesHealthy, j.x), OfExam(InstancesFailed, j.x)} <= o.c.series
                  && (b != p ==> PhaseTransition(j.x, p, b) in o.c.series)
                  && (q != b ==> PhaseTransition(j.x, b, q) in o.c.series))
            && (q != p || (q == TearingDown && !o.err) ==> o.c.status.phaseEntry == Some(j.now))
            && (q == p && q != TearingDown ==> o.c.status.phaseEntry == c.status.phaseEntry)
  {
    hide ReconcileProvisioning, ReconcileReady, ReconcileUnlock, ReconcileLocked, ComputeSchedule, Summarize;
    var b := Begin(j, c);
    BeginPlaces(j, c);
    match b.status.phase {
      case Provisioning => ProvisioningCounts(j, b);
      case TearingDown => TeardownStays(j, b);
      case _ => OtherHandlersCount(j, b);
    }
  }

  lemma {:induction false} StudentsKeepSeries(j: Job, c: Ctx, i: nat, healthy: bool)
    requires i <= |j.spec.students|
    ensures c.series <= ProvisionStudents(j, c, i, healthy).c.series
    decreases |j.spec.students| - i
  {
    hide ProvisionInstance, FindStudentSlug;
    if i < |j.spec.students| && FindStudentSlug(j, c, i).Some? {
      var slug := FindStudentSlug(j, c, i).value;
      var ok := !ProvisionInstance(j, c.store, StudentAt(i), j.spec.students[i].id, slug).err;
      StudentsKeepSeries(j, ProvisionStudent(j, c, i, slug), i + 1, healthy && ok);
    }
  }

  lemma {:induction false} SparesKeepSeries(j: Job, c: Ctx, i: nat, healthy: bool)
    ensures c.series <= ProvisionSpares(j, c, i, healthy).c.series
    decreases j.spec.spares - i
  {
    hide ProvisionInstance, FindSpareSlug;
    if i < j.spec.spares && FindSpareSlug(j, c, i).Some? {
      var slug := FindSpareSlug(j, c, i).value;
      var ok := !ProvisionInstance(j, c.store, SpareAt(i), "", slug).err;
      SparesKeepSeries(j, ProvisionSpare(j, c, i, slug), i + 1, healthy && ok);
    }
  }

  lemma ProvisioningCounts(j: Job, c: Ctx)
    requires c.status.phase == Phase.Provisioning
    ensures var o := ReconcileProvisioning(j, c).c;
            && o.status.phase in {Phase.Provisioning, Ready}
            && (forall e :: e in c.series && !e.PhaseDuration? ==> e in o.series)
            && (o.status.phase == Ready ==> PhaseTransition(j.x, Phase.Provisioning, Ready) in o.series)
            && o.status.phaseEntry == if o.status.phase == Ready then Some(j.now) else c.status.phaseEntry
  {
    hide ProvisionStudents, ProvisionSpares, Cleanup, AllInstancesHealthy, ValidSlugs, NamespaceObject, SpareURLsOf;
    var made := Create(c.store, NamespaceKey(j.ns), NamespaceObject(j.x), j.env.fault(NamespaceCreate));
    var c0 := c.(store := made.store);
    StudentsKeepSeries(j, c0, 0, true);
    StudentsKeepPhase(j, c0, 0, true);
    var students := ProvisionStudents(j, c0, 0, true);
    SparesKeepSeries(j, students.c, 0, students.healthy);
    SparesKeepPhase(j, students.c, 0, students.healthy);
  }

  lemma OtherHandlersCount(j: Job, c: Ctx)
    requires c.status.phase in {Pending, Ready, Phase.Unlocked, Phase.Locked}
    ensures var o := Dispatch(j, c).c;
            o.status.phase == c.status.phase && o.status.phaseEntry == c.status.phaseEntry && c.series <= o.series
  {
    hide EnforceFrom, Entries, NextWake, MailDue, DryRunDue, FailedMails, CountStudents, DeleteIngresses,
         MarkStudents, MarkSpares;
  }

  /** At most one duration series, and it is the recorded phase's. */
  ghost predicate SeriesFollow(m: Machine, s: State) {
    && (s.c.status.phase != Unset ==> s.c.status.phaseEntry.Some?)
    && PhaseSeries(s.c.series, m.x) <= {PhaseDuration(m.x, s.c.status.phase)}
    && (s.c.status.phase == Unset ==> PhaseSeries(s.c.series, m.x) == {})
  }

  lemma StepSeriesFollow(m: Machine, s: State, step: Step)
    requires Enabled(m, s, step) && SeriesFollow(m, s)
    requires step.Reconciled? ==> step.saved
    ensures var t := Apply(m, s, step);
            && SeriesFollow(m, t)
            && (step.Reconciled? && t.c.status.phase != TearingDown ==>
                  PhaseSeries(t.c.series, m.x) == {PhaseDuration(m.x, t.c.status.phase)})
  {
    hide Reconcile, ValidateUpdate, ComputeSchedule, Begin;
    if step.Reconciled? {
      PassSeries(JobOf(m, s, step.env), s.c);
    } else if step.Elsewhere? {
      assert PhaseSeries(step.series, m.x) == PhaseSeries(s.c.series, m.x);
    }
  }

  /** In every run that loses no status write. */
  lemma {:induction false} RunSeriesFollow(m: Machine, s: State, steps: seq<Step>)
    requires Legal(m, s, steps) && SeriesFollow(m, s)
    requires forall i :: 0 <= i < |steps| && steps[i].Reconciled? ==> steps[i].saved
    ensures SeriesFollow(m, Run(m, s, steps))
    decreases |steps|
  {
    hide Apply, SeriesFollow;
    if steps != [] {
      StepSeriesFollow(m, s, steps[0]);
      RunSeriesFollow(m, Apply(m, s, steps[0]), steps[1..]);
    }
  }

  /** Once torn down, an exam gets no series back. */
  lemma {:induction false} NoSeriesAfterTeardown(m: Machine, s: State, steps: seq<Step>)
    requires Legal(m, s, steps) && s.c.status.phase == TearingDown
    requires forall e: Series :: e.exam == m.x ==> e !in s.c.series
    ensures forall e: Series :: e.exam == m.x ==> e !in Run(m, s, steps).c.series
    decreases |steps|
  {
    hide Apply;
    if steps != [] {
      TornDownStep(m, s, steps[0]);
      NoSeriesAfterTeardown(m, Apply(m, s, steps[0]), steps[1..]);
    }
  }

  lemma TornDownStep(m: Machine, s: State, step: Step)
    requires Enabled(m, s, step) && s.c.status.phase == TearingDown
    requires forall e: Series :: e.exam == m.x ==> e !in s.c.series
    ensures Apply(m, s, step).c.status.phase == TearingDown
    ensures forall e: Series :: e.exam == m.x ==> e !in Apply(m, s, step).c.series
  {
    hide ComputeSchedule, ValidateUpdate;
  }

  // Lost writes.

  /** The duration series that may stand when a pass begins: that of the phase it will work in, which
      recorded phase, spec and clock decide, and that of the recorded phase. */
  function Tolerated(j: Job, c: Ctx): set<Series> {
    {PhaseDuration(j.x, Begin(j, c).status.phase)}
    + (if c.status.phase == Unset then {} else {PhaseDuration(j.x, c.status.phase)})
  }

  /** A pass leaves the one series of its phase exactly when it finds no others than it tolerates; if the
      gate opens, that of Ready is tolerated too. */
  lemma SingleSeriesIff(j: Job, c: Ctx)
    requires c.status.phase != Unset ==> c.status.phaseEntry.Some?
    ensures var b, q := Begin(j, c).status.phase, Reconcile(j, c).c.status.phase;
            var found, left := PhaseSeries(c.series, j.x), PhaseSeries(Reconcile(j, c).c.series, j.x);
            && (b !in {Phase.Provisioning, TearingDown} ==> q == b && (left == {PhaseDuration(j.x, b)} <==> found <= Tolerated(j, c)))
            && (b == Phase.Provisioning && q != Ready ==>
                  q == b && (left == {PhaseDuration(j.x, b)} <==> found <= Tolerated(j, c)))
            && (b == Phase.Provisioning && q == Ready ==>
                  (left == {PhaseDuration(j.x, Ready)} <==> found <= Tolerated(j, c) + {PhaseDuration(j.x, Ready)}))
            && (b == TearingDown ==> q == b && left <= found)
  {
    hide Reconcile, Begin, PhaseSeries;
    PassSeries(j, c);
    BeginPlaces(j, c);
  }

  ghost predicate AtMostOne(m: Machine, s: State) {
    |PhaseSeries(s.c.series, m.x)| <= 1
  }

  /** What the step finds is what it tolerates. */
  ghost predicate Matches(m: Machine, s: State, step: Step) {
    step.Reconciled? ==>
      var j := JobOf(m, s, step.env);
      var b := Begin(j, s.c).status.phase;
      var gateOpens := b == Phase.Provisioning && Reconcile(j, s.c).c.status.phase == Ready;
      b == TearingDown ||
      PhaseSeries(s.c.series, m.x) <= Tolerated(j, s.c) + (if gateOpens then {PhaseDuration(m.x, Ready)} else {})
  }

  lemma AtMostOneOf(q: set<Series>, e: Series)
    requires e in q
    ensures |q| <= 1 <==> q == {e}
  {
    SubsetCardinality({e}, q);
  }

  lemma StepSingleIff(m: Machine, s: State, step: Step)
    requires Enabled(m, s, step) && AtMostOne(m, s)
    requires s.c.status.phase != Unset ==> s.c.status.phaseEntry.Some?
    ensures AtMostOne(m, Apply(m, s, step)) <==> Matches(m, s, step)
    ensures var t := Apply(m, s, step).c.status; t.phase != Unset ==> t.phaseEntry.Some?
  {
    hide Reconcile, Begin, ValidateUpdate, Tolerated, PhaseSeries;
    match step
    case Reconciled(env, saved) =>
      var j := JobOf(m, s, env);
      var left := PhaseSeries(Reconcile(j, s.c).c.series, m.x);
      PassSeries(j, s.c);
      SingleSeriesIff(j, s.c);
      if Begin(j, s.c).status.phase == TearingDown {
        SubsetCardinality(left, PhaseSeries(s.c.series, m.x));
      } else {
        AtMostOneOf(left, PhaseDuration(m.x, Reconcile(j, s.c).c.status.phase));
      }
    case Elsewhere(store, series) =>
      assert PhaseSeries(series, m.x) == PhaseSeries(s.c.series, m.x) by { SameSeries(m, s, series); }
    case _ =>
  }

  lemma SameSeries(m: Machine, s: State, series: set<Series>)
    requires forall e: Series :: e.exam == m.x ==> (e in series <==> e in s.c.series)
    ensures PhaseSeries(series, m.x) == PhaseSeries(s.c.series, m.x)
  {
  }

  ghost predicate AlwaysSingle(m: Machine, s: State, steps: seq<Step>)
    decreases |steps|
  {
    AtMostOne(m, s) && (steps == [] || AlwaysSingle(m, Apply(m, s, steps[0]), steps[1..]))
  }

  ghost predicate AlwaysMatches(m: Machine, s: State, steps: seq<Step>)
    decreases |steps|
  {
    steps == [] || (Matches(m, s, steps[0]) && AlwaysMatches(m, Apply(m, s, steps[0]), steps[1..]))
  }

  /** In a run that may lose any status writes the exam has at most one duration series all along if and
      only if every pass finds only series that it tolerates. */
  lemma {:induction false} RunSingleIff(m: Machine, s: State, steps: seq<Step>)
    requires Legal(m, s, steps) && AtMostOne(m, s)
    requires s.c.status.phase != Unset ==> s.c.status.phaseEntry.Some?
    ensures AlwaysSingle(m, s, steps) <==> AlwaysMatches(m, s, steps)
    decreases |steps|
  {
    hide Apply, AtMostOne, Matches;
    if steps != [] {
      var t := Apply(m, s, steps[0]);
      StepSingleIff(m, s, steps[0]);
      if AtMostOne(m, t) {
        RunSingleIff(m, t, steps[1..]);
      }
    }
  }

  lemma ProvisioningAddsSeries(j: Job, c: Ctx)
    requires c.status.phase == Pending && c.status.phaseEntry.Some? && ComputeSchedule(j.spec).provision <= j.now
    ensures var q := Reconcile(j, c).c.status.phase;
            q in {Phase.Provisioning, Ready} && PhaseDuration(j.x, q) in PhaseSeries(Reconcile(j, c).c.series, j.x)
  {
    hide Reconcile, ComputeSchedule, Begin, PhaseSeries;
    PassSeries(j, c);
    PassPhase(j, c);
  }

  lemma PendingAddsSeries(j: Job, c: Ctx)
    requires c.status.phase == Pending && c.status.phaseEntry.Some? && j.now < ComputeSchedule(j.spec).provision
    ensures PhaseSeries(Reconcile(j, c).c.series, j.x) == PhaseSeries(c.series, j.x) + {PhaseDuration(j.x, Pending)}
  {
    hide Reconcile, ComputeSchedule, PhaseSeries, Begin;
    BeginPlaces(j, c);
    PassSeries(j, c);
    PassPhase(j, c);
  }

  /** With a lost write it fails: the pass that provisions is forgotten, an edit puts provisioning
      off, and the next pass adds the Pending series beside the stale one. */
  lemma LostWriteLeavesStaleSeries(m: Machine, s: State, env: Env, later: Spec, env': Env)
    requires s.c.status.phase == Pending && s.c.status.phaseEntry.Some?
    requires ComputeSchedule(s.spec).provision <= s.clock
    requires ValidSpec(later) && s.clock < ComputeSchedule(later).provision
    ensures var t := Run(m, s, [Reconciled(env, false), Edit(later), Reconciled(env', true)]);
            |PhaseSeries(t.c.series, m.x)| >= 2
  {
    hide Reconcile, ComputeSchedule, PhaseSeries, Begin, ValidSpec;
    var a := Apply(m, s, Reconciled(env, false));
    ProvisioningAddsSeries(JobOf(m, s, env), s.c);
    var q := Reconcile(JobOf(m, s, env), s.c).c.status.phase;
    var b := Apply(m, a, Edit(later));
    assert b == a.(spec := later);
    var t := Apply(m, b, Reconciled(env', true));
    PendingAddsSeries(JobOf(m, b, env'), b.c);
    RunThree(m, s, Reconciled(env, false), Edit(later), Reconciled(env', true));
    SubsetCardinality({PhaseDuration(m.x, q), PhaseDuration(m.x, Pending)}, PhaseSeries(t.c.series, m.x));
  }

  /** The same from admission: the exam waits, its time comes, and then the three steps. */
  lemma StaleSeriesReached(m: Machine, s: State, first: Env, elapsed: nat, env: Env, later: Spec, env': Env)
    requires Initial(m, s) && first.Valid() && env.Valid() && env'.Valid()
    requires s.clock < ComputeSchedule(s.spec).provision <= s.clock + elapsed < ComputeSchedule(later).provision
    requires ValidSpec(later)
    ensures var steps := [Reconciled(first, true), Tick(elapsed)] + [Reconciled(env, false), Edit(later), Reconciled(env', true)];
            Legal(m, s, steps) && |PhaseSeries(Run(m, s, steps).c.series, m.x)| >= 2
  {
    hide Reconcile, ComputeSchedule, PhaseSeries, Begin, ValidSpec, LockTime;
    var before := [Reconciled(first, true), Tick(elapsed)];
    var after := [Reconciled(env, false), Edit(later), Reconciled(env', true)];
    var t := Apply(m, Apply(m, s, before[0]), before[1]);
    PendingAfterFirst(JobOf(m, s, first), s.c);
    TwoSteps(m, s, before);
    RunAppend(m, s, before, after);
    LostWriteLeavesStaleSeries(m, t, env, later, env');
    ThreeLegal(m, t, after);
  }

  lemma PendingAfterFirst(j: Job, c: Ctx)
    requires c.status.phase == Unset && j.now < ComputeSchedule(j.spec).provision
    ensures Reconcile(j, c).c.status.phase == Pending && Reconcile(j, c).c.status.phaseEntry.Some?
  {
    hide ComputeSchedule, Summarize;
  }

  lemma ThreeLegal(m: Machine, s: State, steps: seq<Step>)
    requires |steps| == 3 && steps[0].Reconciled? && steps[1].Edit? && steps[2].Reconciled?
    requires steps[0].env.Valid() && steps[2].env.Valid()
    ensures Legal(m, s, steps)
  {
    hide Apply;
    assert steps[1..][1..] == steps[2..] && steps[2..][1..] == [];
    assert steps[1..][0] == steps[1] && steps[2..][0] == steps[2];
    var t := Apply(m, s, steps[0]);
    var u := Apply(m, t, steps[1]);
    assert Legal(m, u, steps[2..]) by { assert Legal(m, Apply(m, u, steps[2]), []); }
    assert Legal(m, t, steps[1..]);
  }

  /** Locking leaves one behind in the same way: the write of the pass that locks is lost, the exam is
      extended, and the next pass works in Unlocked beside the series of Locked. */
  lemma LostLockLeavesStaleSeries(m: Machine, s: State, env: Env, later: Spec, env': Env)
    requires s.c.status.phase == Phase.Unlocked && s.c.status.phaseEntry.Some?
    requires LockTime(s.spec.schedule) <= s.clock < LockTime(later.schedule)
    requires ValidSpec(later) && SameIdentity(s.spec, later) && env.Valid() && env'.Valid()
    ensures var steps := [Reconciled(env, false), Edit(later), Reconciled(env', true)];
            Legal(m, s, steps) && Run(m, s, steps).c.status.phase == Phase.Unlocked
            && |PhaseSeries(Run(m, s, steps).c.series, m.x)| >= 2
  {
    hide Reconcile, PhaseSeries, ValidSpec, LockTime, SameIdentity;
    var a := Apply(m, s, Reconciled(env, false));
    UnlockedPassSeries(JobOf(m, s, env), s.c);
    var b := Apply(m, a, Edit(later));
    assert b == a.(spec := later);
    var t := Apply(m, b, Reconciled(env', true));
    UnlockedPassSeries(JobOf(m, b, env'), b.c);
    ThreeLegal(m, s, [Reconciled(env, false), Edit(later), Reconciled(env', true)]);
    RunThree(m, s, Reconciled(env, false), Edit(later), Reconciled(env', true));
    SubsetCardinality({PhaseDuration(m.x, Phase.Locked), PhaseDuration(m.x, Phase.Unlocked)}, PhaseSeries(t.c.series, m.x));
  }

  lemma UnlockedPassSeries(j: Job, c: Ctx)
    requires c.status.phase == Phase.Unlocked && c.status.phaseEntry.Some?
    ensures var o := Reconcile(j, c).c;
            if LockTime(j.spec.schedule) <= j.now
            then PhaseDuration(j.x, Phase.Locked) in PhaseSeries(o.series, j.x)
            else o.status.phase == Phase.Unlocked
                 && PhaseSeries(o.series, j.x) == PhaseSeries(c.series, j.x) + {PhaseDuration(j.x, Phase.Unlocked)}
  {
    hide Reconcile, PhaseSeries, LockTime, Begin;
    PassSeries(j, c);
    PassPhase(j, c);
    BeginPlaces(j, c);
  }

  ghost predicate HasEntry(st: Status) {
    st.phase != Unset ==> st.phaseEntry.Some?
  }

  lemma {:induction false} RunHasEntry(m: Machine, s: State, steps: seq<Step>)
    requires HasEntry(s.c.status)
    ensures HasEntry(Run(m, s, steps).c.status)
    decreases |steps|
  {
    hide Reconcile, ValidateUpdate, PhaseSeries, Begin;
    if steps != [] {
      if steps[0].Reconciled? {
        PassSeries(JobOf(m, s, steps[0].env), s.c);
      }
      RunHasEntry(m, Apply(m, s, steps[0]), steps[1..]);
    }
  }

  /** And this too happens to any exam with distinct ids: from admission a run leads to where it starts. */
  lemma LostLockReached(m: Machine, s: State, at: int, env: Env, later: Spec, env': Env) returns (steps: seq<Step>)
    requires m.ns != "" && Initial(m, s) && DistinctIDs(s.spec) && s.clock <= at
    requires LockTime(s.spec.schedule) <= at < LockTime(later.schedule)
    requires ValidSpec(later) && SameIdentity(s.spec, later) && env.Valid() && env'.Valid()
    ensures Legal(m, s, steps) && |PhaseSeries(Run(m, s, steps).c.series, m.x)| >= 2
    ensures Run(m, s, steps).c.status.phase == Phase.Unlocked && Run(m, s, steps).clock == at
  {
    hide Reconcile, PhaseSeries, ValidSpec, LockTime, SameIdentity, Run, Legal, ComputeSchedule, Begin, Initial;
    AdmittedInOrder(m, s);
    var before := ReadyReached(m, s);
    var u := Run(m, s, before);
    RunHasEntry(m, s, before);
    var open := [Tick(at - u.clock), Reconciled(Unhindered(""), true)];
    var v := Apply(m, Apply(m, u, open[0]), open[1]);
    TwoSteps(m, u, open);
    OpensAt(JobOf(m, Apply(m, u, open[0]), Unhindered("")), u.c);
    var after := [Reconciled(env, false), Edit(later), Reconciled(env', true)];
    LostLockLeavesStaleSeries(m, v, env, later, env');
    RunThree(m, v, after[0], after[1], after[2]);
    RunAppend(m, u, open, after);
    RunAppend(m, s, before, open + after);
    steps := before + (open + after);
  }

  lemma AdmittedInOrder(m: Machine, s: State)
    requires Initial(m, s)
    ensures HasEntry(s.c.status) && ComputeSchedule(s.spec).provision < LockTime(s.spec.schedule)
    ensures s.spec.schedule.unlock <= LockTime(s.spec.schedule)
  {
    hide LockTime;
    AdmittedTimesOrdered(s.spec);
  }

  lemma OpensAt(j: Job, c: Ctx)
    requires c.status.phase == Ready && HasEntry(c.status) && j.spec.schedule.unlock <= j.now
    ensures Reconcile(j, c).c.status.phase == Phase.Unlocked && Reconcile(j, c).c.status.phaseEntry.Some?
  {
    hide Reconcile, PhaseSeries, ComputeSchedule, Begin;
    PassSeries(j, c);
    PassPhase(j, c);
  }
}
