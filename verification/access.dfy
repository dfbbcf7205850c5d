/** Who can be let in, and when: routes and ingress-allow policies over whole runs. */
module Access {
  import opened Prelude
  import opened ExamApi
  import opened Timetable
  import opened Webhook
  import opened Objects
  import opened Store
  import opened Oracle
  import opened Pass
  import opened System
  import opened Lifecycle
  import opened Alignment
  import opened Identity
  import opened Footprint
  import opened Interference

  ghost predicate NoAccess(ns: string, s: Cluster) {
    forall k :: k in s && k.namespace == ns ==> !IsAccess(k)
  }

  /** Anything that lets someone in was made after unlock, from the template the spec still has. */
  ghost predicate Gated(m: Machine, s: State) {
    && OnTime(s) && LinedUp(m, s)
    && forall k :: k in s.c.store && k.namespace == m.ns && IsAccess(k) ==>
         Rank(s.c.status.phase) >= 2 && s.spec.schedule.unlock <= s.clock
         && WellMade(m.x, s.spec.template, k, s.c.store[k])
  }

  lemma PassGated(m: Machine, s: State, env: Env, saved: bool)
    requires m.ns != "" && Gated(m, s) && env.Valid()
    ensures Gated(m, AfterPass(m, s, env, saved))
  {
    hide Reconcile, WellMade, GoodStudent, GoodSpare, LockTime, DesiredPhase;
    var j := JobOf(m, s, env);
    var t := AfterPass(m, s, env, saved);
    PassPhase(j, s.c);
    PassContained(j, s.c);
    StepOnTime(m, s, Reconciled(env, saved));
    StepLinedUp(m, s, Reconciled(env, saved));
    OpeningPass(j, s.c);
    forall k | k in t.c.store && k.namespace == m.ns && IsAccess(k)
      ensures Rank(t.c.status.phase) >= 2 && t.spec.schedule.unlock <= t.clock
              && WellMade(m.x, t.spec.template, k, t.c.store[k])
    {
      if k in s.c.store && s.c.store[k] == t.c.store[k] {
      } else {
        assert Begin(j, s.c).status.phase == Phase.Unlocked;
      }
    }
  }

  /** A pass works in Unlocked only if the exam was Ready at or past unlock, or already Unlocked. */
  lemma OpeningPass(j: Job, c: Ctx)
    ensures Begin(j, c).status.phase == Phase.Unlocked ==>
              c.status.phase == Phase.Unlocked || (c.status.phase == Ready && j.spec.schedule.unlock <= j.now)
  {
    hide ComputeSchedule;
  }

  lemma StepGated(m: Machine, s: State, step: Step)
    requires m.ns != "" && Gated(m, s) && Enabled(m, s, step)
    ensures Gated(m, Apply(m, s, step))
  {
    hide Reconcile, AfterPass, ValidateUpdate, GoodStudent, GoodSpare, LockTime;
    match step
    case Reconciled(env, saved) => PassGated(m, s, env, saved);
    case _ =>
      StepOnTime(m, s, step);
      StepLinedUp(m, s, step);
  }

  lemma {:induction false} RunGated(m: Machine, s: State, steps: seq<Step>)
    requires m.ns != "" && Gated(m, s) && Legal(m, s, steps)
    ensures Gated(m, Run(m, s, steps))
    decreases |steps|
  {
    hide Apply, Gated;
    if steps != [] {
      StepGated(m, s, steps[0]);
      RunGated(m, Apply(m, s, steps[0]), steps[1..]);
    }
  }

  /** In every reachable state before unlock there is no route and no ingress-allow policy. */
  lemma NoAccessBeforeUnlock(m: Machine, s: State, steps: seq<Step>)
    requires m.ns != "" && Initial(m, s) && Legal(m, s, steps)
    ensures var t := Run(m, s, steps);
            t.clock < t.spec.schedule.unlock ==> NoAccess(m.ns, t.c.store)
  {
    hide Apply, Run, WellMade, LockTime;
    InitialLinedUp(m, s);
    assert Gated(m, s);
    RunGated(m, s, steps);
  }

  // Closing.

  lemma {:induction false} DeleteEachDeletes(s: Cluster, items: seq<Key>, env: Env)
    requires !DeleteEach(s, items, env).err
    ensures var t := DeleteEach(s, items, env).store;
            (forall k :: k in t ==> k in s && t[k] == s[k] && k !in items)
            && (forall k :: k in s && k !in items ==> k in t)
    decreases |items|
  {
    if items != [] {
      var first := Delete(s, items[0], env.fault(IngressDelete(items[0])));
      DeleteEachDeletes(first.store, items[1..], env);
    }
  }

  /** A Locked pass that reports no error has removed every route that carries the exam's labels. */
  lemma LockedPassRemovesRoutes(j: Job, c: Ctx)
    requires j.env.Valid() && !ReconcileLocked(j, c).err
    ensures Owned(j, ReconcileLocked(j, c).c.store, IngressKind) == {}
  {
    hide EnforceFrom, DeleteEach, Notify, MarkStudents, MarkSpares, CountStudents, Entries;
    var closed := EnforcePolicies(j, c, false);
    var items := j.env.order(IngressList, Owned(j, closed.store, IngressKind));
    assert Enumerates(items, Owned(j, closed.store, IngressKind));
    DeleteEachDeletes(closed.store, items, j.env);
    var marked := MarkInstances(closed.(store := DeleteIngresses(j, closed.store).store), InstanceLocked);
    var lost := CountStudents(marked.status.students, Failed);
    NotifyKeepsLists(j, marked, LockLetter,
      LockNotice(|j.spec.students|, Max(|marked.status.students| - lost, 0), lost), InstructorNotifiedLock);
    assert ReconcileLocked(j, c).c.store == DeleteIngresses(j, closed.store).store;
  }

  lemma {:induction false} ClosingRemovesAllows(j: Job, s: Cluster, entries: seq<Entry>, i: nat, k: nat)
    requires i <= k < |entries| && j.env.fault(Unmake(EntryAt(k))) != Refused
    ensures PolicyKey(j.ns, IngressAllowPart, entries[k].slug) !in EnforceFrom(j, s, entries, i, false)
    decreases |entries| - i
  {
    hide EnforceEntry, WellMade;
    var t := EnforceEntry(j, s, i, entries[i], false);
    if i < k {
      ClosingRemovesAllows(j, t, entries, i + 1, k);
    } else {
      assert PolicyKey(j.ns, IngressAllowPart, entries[k].slug) !in t by {
        ClosingEntryRemovesAllow(j, s, i, entries[i]);
      }
      EnforceChanges(j, t, entries, i + 1, false);
    }
  }

  lemma ClosingEntryRemovesAllow(j: Job, s: Cluster, i: nat, e: Entry)
    requires j.env.fault(Unmake(EntryAt(i))) != Refused
    ensures PolicyKey(j.ns, IngressAllowPart, e.slug) !in EnforceEntry(j, s, i, e, false)
  {
    hide CreatePolicy;
  }

  /** If no delete is refused, a closing pass leaves no ingress-allow policy of a recorded slug. */
  lemma ClosedPassRemovesAllows(j: Job, c: Ctx, k: nat)
    requires k < |Entries(c.status)| && j.env.fault(Unmake(EntryAt(k))) != Refused
    ensures PolicyKey(j.ns, IngressAllowPart, Entries(c.status)[k].slug) !in EnforcePolicies(j, c, false).store
  {
    hide EnforceFrom, Entries;
    ClosingRemovesAllows(j, c.store, Entries(c.status), 0, k);
  }

  /** Once Locked is recorded, a route or an ingress-allow policy that is gone never comes back. */
  lemma {:induction false} NeverReopened(m: Machine, s: State, steps: seq<Step>, k: Key)
    requires m.ns != "" && Gated(m, s) && Legal(m, s, steps)
    requires Rank(s.c.status.phase) >= 4
    requires k.namespace == m.ns && IsAccess(k) && k !in s.c.store
    ensures k !in Run(m, s, steps).c.store
    decreases |steps|
  {
    hide Apply, Gated, IsAccess;
    if steps != [] {
      var t := Apply(m, s, steps[0]);
      StepGated(m, s, steps[0]);
      StepPhase(m, s, steps[0]);
      StepNeverReopens(m, s, steps[0], k);
      NeverReopened(m, t, steps[1..], k);
    }
  }

  lemma StepNeverReopens(m: Machine, s: State, step: Step, k: Key)
    requires m.ns != "" && Gated(m, s) && Enabled(m, s, step) && Rank(s.c.status.phase) >= 4
    requires k.namespace == m.ns && IsAccess(k) && k !in s.c.store
    ensures k !in Apply(m, s, step).c.store
  {
    hide Reconcile, WellMade, ValidateUpdate, LockTime, GoodStudent, GoodSpare, DesiredPhase;
    if step.Reconciled? {
      PassContained(JobOf(m, s, step.env), s.c);
      OpeningPass(JobOf(m, s, step.env), s.c);
    }
  }
}
