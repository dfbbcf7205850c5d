/** After teardown nothing of the exam is left in the cluster, and nothing of it comes back. */
module Teardown {
  import opened ExamApi
  import opened Timetable
  import opened Objects
  import opened Store
  import opened Oracle
  import opened Pass
  import opened System
  import opened Lifecycle
  import opened Wakeup

  /** Neither the exam's namespace nor anything in it is there. */
  ghost predicate Gone(ns: string, s: Cluster) {
    forall k :: k in s ==> k.namespace != ns && k != NamespaceKey(ns)
  }

  lemma WorksInTeardown(j: Job, c: Ctx)
    requires Reconcile(j, c).c.status.phase == TearingDown
    ensures var b := Begin(j, c);
            b.status.phase == TearingDown && b.store == c.store && Reconcile(j, c) == ReconcileTeardown(j, b)
  {
    hide ReconcileProvisioning, ReconcileReady, ReconcileUnlock, ReconcileLocked, ComputeSchedule, Summarize, DeleteNamespace;
    PassPhase(j, c);
    BeginPlaces(j, c);
  }

  /** A pass that tears down without error leaves neither the namespace nor anything in it, and whatever
      is elsewhere as it was. Only a failing delete of the namespace is an error. */
  lemma TeardownDeletes(j: Job, c: Ctx)
    ensures var o := Reconcile(j, c);
            o.c.status.phase == TearingDown ==>
              && (o.err <==> j.env.fault(NamespaceDelete) != NoFault)
              && (!o.err ==> Gone(j.ns, o.c.store) && o.c.status.message == NamespaceDeleted)
              && forall k: Key :: k.namespace != j.ns && k != NamespaceKey(j.ns) ==>
                   (k in o.c.store <==> k in c.store) && (k in c.store ==> o.c.store[k] == c.store[k])
  {
    hide Reconcile, Begin;
    if Reconcile(j, c).c.status.phase == TearingDown {
      WorksInTeardown(j, c);
    }
  }

  lemma StepStaysGone(m: Machine, s: State, step: Step)
    requires s.c.status.phase == TearingDown && Gone(m.ns, s.c.store) && Enabled(m, s, step)
    ensures Apply(m, s, step).c.status.phase == TearingDown && Gone(m.ns, Apply(m, s, step).c.store)
  {
    hide Reconcile, Begin, DeleteNamespace;
    StepPhase(m, s, step);
    if step.Reconciled? {
      var j := JobOf(m, s, step.env);
      PassPhase(j, s.c);
      TeardownDeletes(j, s.c);
      WorksInTeardown(j, s.c);
      DeletingAddsNothing(s.c.store, m.ns, step.env.fault(NamespaceDelete));
    }
  }

  lemma DeletingAddsNothing(s: Cluster, ns: string, f: Fault)
    ensures forall k :: k in DeleteNamespace(s, ns, f).store ==> k in s
  {
  }

  lemma {:induction false} RunStaysGone(m: Machine, s: State, steps: seq<Step>)
    requires s.c.status.phase == TearingDown && Gone(m.ns, s.c.store) && Legal(m, s, steps)
    ensures Run(m, s, steps).c.status.phase == TearingDown && Gone(m.ns, Run(m, s, steps).c.store)
    decreases |steps|
  {
    hide Apply, Enabled, Gone;
    if steps != [] {
      StepStaysGone(m, s, steps[0]);
      RunStaysGone(m, Apply(m, s, steps[0]), steps[1..]);
    }
  }

  /** Once a pass that tore down without error is recorded, no state of any later run holds the namespace
      or anything in it. */
  lemma TornDownForGood(m: Machine, s: State, env: Env, steps: seq<Step>)
    ensures var t := AfterPass(m, s, env, true);
            t.c.status.phase == TearingDown && env.fault(NamespaceDelete) == NoFault && Legal(m, t, steps) ==>
              Gone(m.ns, Run(m, t, steps).c.store)
  {
    hide Reconcile, Gone, Run, Legal;
    var t := AfterPass(m, s, env, true);
    if t.c.status.phase == TearingDown && env.fault(NamespaceDelete) == NoFault && Legal(m, t, steps) {
      TeardownDeletes(JobOf(m, s, env), s.c);
      RunStaysGone(m, t, steps);
    }
  }

  /** So every Ready exam ends with an empty cluster: let anything happen until its schedule is over, let
      three passes be saved without a further edit, and let one more pass delete the namespace. */
  lemma ExamEndsGone(m: Machine, s: State, before: seq<Step>, after: seq<Step>, env: Env, later: seq<Step>)
    requires s.c.status.phase == Ready && PastBoundary(Run(m, s, before))
    requires (forall i :: 0 <= i < |after| ==> !after[i].Edit?) && SavedPasses(after) >= 3
    requires env.fault(NamespaceDelete) == NoFault
    ensures var t := Run(m, s, before + after);
            forall saved: bool :: Legal(m, AfterPass(m, t, env, saved), later) ==>
              Gone(m.ns, Run(m, AfterPass(m, t, env, saved), later).c.store)
  {
    hide Reconcile, Gone, Run, Legal, PhaseChanges, PastBoundary;
    ReadyReachesTearingDown(m, s, before, after);
    var t := Run(m, s, before + after);
    PassPhase(JobOf(m, t, env), t.c);
    TeardownDeletes(JobOf(m, t, env), t.c);
    forall saved: bool | Legal(m, AfterPass(m, t, env, saved), later)
      ensures Gone(m.ns, Run(m, AfterPass(m, t, env, saved), later).c.store)
    {
      RunStaysGone(m, AfterPass(m, t, env, saved), later);
    }
  }
}
