/** With the clock standing still and no failures, passes come to rest, and soon. */
module Quiescence {
  import opened Prelude
  import opened ExamApi
  import opened Timetable
  import opened Objects
  import opened Store
  import opened Metrics
  import opened Oracle
  import opened Pass
  import opened System
  import opened Lifecycle
  import opened Wakeup
  import opened Access
  import opened Reachability
  import opened Mailing
  import opened Deadline

  ghost predicate Good(env: Env) {
    env.Valid() && env.Calm()
  }

  /** No pass without failures changes anything any more. */
  ghost predicate Still(m: Machine, s: State) {
    forall env :: Good(env) ==> AfterPass(m, s, env, true) == s
  }

  /** The cluster already is as an enforcement wants it. */
  ghost predicate Enforced(ns: string, s: Cluster, entries: seq<Entry>, unlocked: bool) {
    forall k :: 0 <= k < |entries| ==>
      && PolicyKey(ns, DenyAllPart, entries[k].slug) in s
      && PolicyKey(ns, EgressAllowPart, entries[k].slug) in s
      && (unlocked ==> IngressKey(ns, entries[k].slug) in s && PolicyKey(ns, IngressAllowPart, entries[k].slug) in s)
      && (!unlocked ==> PolicyKey(ns, IngressAllowPart, entries[k].slug) !in s)
  }

  lemma {:induction false} EnforceIdle(j: Job, s: Cluster, entries: seq<Entry>, i: nat, unlocked: bool)
    requires i <= |entries| && Enforced(j.ns, s, entries, unlocked)
    ensures EnforceFrom(j, s, entries, i, unlocked) == s
    decreases |entries| - i
  {
    hide PolicyObject, IngressObject;
    if i < |entries| {
      assert EnforceEntry(j, s, i, entries[i], unlocked) == s;
      EnforceIdle(j, s, entries, i + 1, unlocked);
    }
  }

  lemma EnforceEnforces(j: Job, s: Cluster, entries: seq<Entry>, unlocked: bool)
    requires j.env.Calm()
    ensures Enforced(j.ns, EnforceFrom(j, s, entries, 0, unlocked), entries, unlocked)
  {
    hide EnforceFrom;
    EnforceEstablishes(j, s, entries, 0, unlocked);
    if !unlocked {
      forall k | 0 <= k < |entries|
        ensures PolicyKey(j.ns, IngressAllowPart, entries[k].slug) !in EnforceFrom(j, s, entries, 0, unlocked)
      {
        ClosingRemovesAllows(j, s, entries, 0, k);
      }
    }
  }

  /** The same entries, whatever the phases say. */
  lemma SameEntries(a: Status, b: Status)
    requires |a.students| == |b.students| && |a.spares| == |b.spares|
    requires forall i :: 0 <= i < |a.students| ==> a.students[i].id == b.students[i].id && a.students[i].slug == b.students[i].slug
    requires forall i :: 0 <= i < |a.spares| ==> a.spares[i].slug == b.spares[i].slug
    ensures Entries(a) == Entries(b)
  {
  }

  /** A status at rest in its phase: the pass has nothing left to record. */
  ghost predicate Rested(j: Job, c: Ctx) {
    && c.status.times == Some(ComputeSchedule(j.spec))
    && c.status.phase != Unset
    && DesiredPhase(c.status.phase, c.status.times, j.spec, j.now) == c.status.phase
    && Finish(j, c) == c
  }

  lemma BeginRested(j: Job, c: Ctx)
    requires Rested(j, c)
    ensures Begin(j, c) == c
  {
    hide ComputeSchedule, DesiredPhase, Finish;
  }

  /** If the handler has nothing to do either, the pass changes nothing. */
  lemma RestedPass(j: Job, c: Ctx)
    requires Rested(j, c) && Dispatch(j, c).c == c
    ensures Reconcile(j, c).c == c
  {
    hide ComputeSchedule, DesiredPhase, Dispatch, Finish;
    BeginRested(j, c);
  }

  lemma FinishTwice(j: Job, k: Job, c: Ctx)
    requires j.x == k.x && j.spec == k.spec
    ensures Finish(k, Finish(j, c)) == Finish(j, c)
    ensures Finish(j, c).store == c.store && Finish(j, c).mails == c.mails
    ensures Finish(j, c).status == c.status.(summary := Finish(j, c).status.summary)
  {
    hide CountStudents, CountEmails, CountSpares;
  }

  // Phase by phase: what a clean handler leaves, a second one does not change.

  lemma WaitTwice(j: Job, k: Job, c: Ctx)
    requires j.env.Calm() && k == j.(env := k.env)
    requires c.status.phase == Ready && !MailDue(j.spec, c.status, j.now)
    ensures var d := Finish(j, WaitForUnlock(j, c).c);
            ReconcileReady(k, d).c == d
  {
    hide EnforceFrom, ComputeSchedule, NextWake, Summarize, Entries;
    var checked := if DryRunDue(j.spec, c.status, j.now) then RunDryRun(j, c) else c;
    var d := Finish(j, WaitForUnlock(j, c).c);
    assert d.store == EnforceFrom(j, c.store, Entries(checked.status), 0, false);
    SameEntries(checked.status, d.status);
    EnforceEnforces(j, c.store, Entries(checked.status), false);
    EnforceIdle(k, d.store, Entries(d.status), 0, false);
  }

  lemma ReadyTwice(j: Job, k: Job, c: Ctx)
    requires j.env.Calm() && k == j.(env := k.env)
    requires c.status.phase == Ready
    requires !(MailDue(j.spec, c.status, j.now) && NextPending(c.status.students, 0).Some?)
    ensures var d := Finish(j, ReconcileReady(j, c).c);
            ReconcileReady(k, d).c == d
  {
    hide WaitForUnlock, Finish, NextPending;
    if MailDue(j.spec, c.status, j.now) {
      WaitTwice(j, k, c.(status := AddCondition(c.status, AllEmailsSent)));
    } else {
      WaitTwice(j, k, c);
    }
  }

  lemma MarkTwice(c: Ctx, phase: InstancePhase)
    requires phase != Failed
    ensures MarkInstances(MarkInstances(c, phase), phase) == MarkInstances(c, phase)
    ensures Entries(MarkInstances(c, phase).status) == Entries(c.status)
  {
    var d := MarkInstances(c, phase);
    assert MarkStudents(d.status.students, phase) == d.status.students;
    assert MarkSpares(d.status.spares, phase) == d.status.spares;
    SameEntries(d.status, c.status);
  }

  lemma MarksDependOnLists(c: Ctx, d: Ctx, phase: InstancePhase)
    requires d.status.students == MarkInstances(c, phase).status.students
    requires d.status.spares == MarkInstances(c, phase).status.spares && phase != Failed
    ensures MarkInstances(d, phase) == d && Entries(d.status) == Entries(c.status)
  {
    MarkTwice(c, phase);
    SameEntries(d.status, MarkInstances(c, phase).status);
  }

  lemma UnlockTwice(j: Job, k: Job, c: Ctx)
    requires j.env.Calm() && k == j.(env := k.env) && c.status.phase == Phase.Unlocked
    ensures var d := Finish(j, ReconcileUnlock(j, c).c);
            ReconcileUnlock(k, d).c == d
  {
    hide EnforceFrom, ComputeSchedule, Summarize, Entries, MarkStudents, MarkSpares, FailedMails;
    var d := Finish(j, ReconcileUnlock(j, c).c);
    assert d.store == EnforceFrom(j, c.store, Entries(c.status), 0, true);
    MarksDependOnLists(EnforcePolicies(j, c, true), d, InstanceUnlocked);
    EnforceEnforces(j, c.store, Entries(c.status), true);
    EnforceIdle(k, d.store, Entries(d.status), 0, true);
    assert EnforcePolicies(k, d, true) == d;
  }

  lemma {:induction false} CalmDeleteEach(s: Cluster, items: seq<Key>, env: Env)
    requires env.Calm()
    ensures !DeleteEach(s, items, env).err
    decreases |items|
  {
    if items != [] {
      CalmDeleteEach(Delete(s, items[0], env.fault(IngressDelete(items[0]))).store, items[1..], env);
    }
  }

  lemma NoRoutesLeft(j: Job, s: Cluster)
    requires j.env.Valid() && j.env.Calm() && Owned(j, s, IngressKind) == {}
    ensures DeleteIngresses(j, s) == Reply(s, false)
  {
    hide Owned;
    var items := j.env.order(IngressList, Owned(j, s, IngressKind));
    assert Enumerates(items, Owned(j, s, IngressKind));
    EnumerationSize(items, Owned(j, s, IngressKind));
  }

  lemma DeletingKeepsEnforced(j: Job, s: Cluster, entries: seq<Entry>)
    requires j.env.Valid() && j.env.Calm() && Enforced(j.ns, s, entries, false)
    ensures Enforced(j.ns, DeleteIngresses(j, s).store, entries, false) && !DeleteIngresses(j, s).err
  {
    hide Owned;
    var items := j.env.order(IngressList, Owned(j, s, IngressKind));
    assert Enumerates(items, Owned(j, s, IngressKind));
    CalmDeleteEach(s, items, j.env);
    DeleteEachDeletes(s, items, j.env);
    forall k | k in items ensures k.kind == IngressKind {
      assert k in Owned(j, s, IngressKind);
      RouteIsRoute(j, s, k);
    }
  }

  lemma RouteIsRoute(j: Job, s: Cluster, k: Key)
    requires k in Owned(j, s, IngressKind)
    ensures k.kind == IngressKind
  {
  }

  lemma LockedTwice(j: Job, k: Job, c: Ctx)
    requires Good(j.env) && Good(k.env) && k == j.(env := k.env) && c.status.phase == Phase.Locked
    ensures var d := Finish(j, ReconcileLocked(j, c).c);
            ReconcileLocked(k, d).c == d
  {
    hide EnforceFrom, DeleteIngresses, ComputeSchedule, Summarize, Entries, MarkStudents, MarkSpares, CountStudents, Owned;
    var closed := EnforcePolicies(j, c, false);
    var removed := DeleteIngresses(j, closed.store);
    EnforceEnforces(j, c.store, Entries(c.status), false);
    DeletingKeepsEnforced(j, closed.store, Entries(c.status));
    LockedPassRemovesRoutes(j, c);
    var d := Finish(j, ReconcileLocked(j, c).c);
    assert d.store == removed.store;
    MarksDependOnLists(closed.(store := removed.store), d, InstanceLocked);
    EnforceIdle(k, d.store, Entries(d.status), 0, false);
    assert EnforcePolicies(k, d, false) == d;
    SameOwned(j, k, d.store, IngressKind);
    NoRoutesLeft(k, d.store);
  }

  lemma SameOwned(j: Job, k: Job, s: Cluster, kind: Kind)
    requires j.x == k.x && j.ns == k.ns
    ensures Owned(j, s, kind) == Owned(k, s, kind)
  {
  }

  lemma TeardownTwice(j: Job, k: Job, c: Ctx)
    requires j.env.Calm() && k.env.Calm() && k == j.(env := k.env) && c.status.phase == TearingDown
    ensures var d := Finish(j, ReconcileTeardown(j, c).c);
            ReconcileTeardown(k, d).c == d
  {
    var d := ReconcileTeardown(j, c).c;
    assert DeleteNamespace(d.store, j.ns, k.env.fault(NamespaceDelete)).store == d.store;
    assert Without(d.series, j.x) == d.series;
  }

  lemma HandlerTwice(j: Job, k: Job, c: Ctx)
    requires Good(j.env) && Good(k.env) && k == j.(env := k.env)
    requires Rank(c.status.phase) >= 2
    requires c.status.phase == Ready ==> !(MailDue(j.spec, c.status, j.now) && NextPending(c.status.students, 0).Some?)
    ensures var d := Finish(j, Dispatch(j, c).c);
            d.status.phase == c.status.phase ==> Dispatch(k, d).c == d
  {
    hide ReconcileReady, ReconcileUnlock, ReconcileLocked, ReconcileTeardown, Finish, NextPending, MailDue;
    match c.status.phase
    case Ready => ReadyTwice(j, k, c);
    case Unlocked => UnlockTwice(j, k, c);
    case Locked => LockedTwice(j, k, c);
    case TearingDown => TeardownTwice(j, k, c);
  }

  /** A clean pass that drains nothing and ends in a phase the clock does not leave comes to rest. */
  lemma QuietPassStill(m: Machine, s: State, env: Env)
    requires Good(env) && Rank(s.c.status.phase) >= 2
    requires !Draining(JobOf(m, s, env), s.c)
    requires var q := Begin(JobOf(m, s, env), s.c).status.phase;
             DesiredPhase(q, Some(ComputeSchedule(s.spec)), s.spec, s.clock) == q
    ensures Still(m, AfterPass(m, s, env, true))
  {
    hide ReconcileProvisioning, ReconcileReady, ReconcileUnlock, ReconcileLocked, ReconcileTeardown, ComputeSchedule,
         Finish, DesiredPhase, NextPending, MailDue;
    var j := JobOf(m, s, env);
    var b := Begin(j, s.c);
    var t := AfterPass(m, s, env, true);
    BeginPlaces(j, s.c);
    assert Rank(b.status.phase) >= 2 by { LaterPhases(j, s.c); }
    MailDueAfterBegin(j, s.c);
    HandlerKeepsPlace(j, b);
    forall env' | Good(env') ensures AfterPass(m, t, env', true) == t {
      var k := JobOf(m, t, env');
      HandlerTwice(j, k, b);
      FinishTwice(j, k, Dispatch(j, b).c);
      RestedPass(k, t.c);
    }
  }

  lemma LaterPhases(j: Job, c: Ctx)
    requires Rank(c.status.phase) >= 2
    ensures Rank(Begin(j, c).status.phase) >= 2
  {
    hide ComputeSchedule;
  }

  lemma MailDueAfterBegin(j: Job, c: Ctx)
    ensures MailDue(j.spec, Begin(j, c).status, j.now) <==> MailDue(j.spec, c.status, j.now)
    ensures Begin(j, c).status.students == c.status.students
  {
    hide ComputeSchedule;
  }

  lemma HandlerKeepsPlace(j: Job, c: Ctx)
    requires Rank(c.status.phase) >= 2
    ensures var o := Dispatch(j, c).c; o.status.phase == c.status.phase && o.status.times == c.status.times
  {
    hide EnforceFrom, Entries, NextWake, MailDue, DryRunDue, FailedMails, CountStudents, DeleteIngresses,
         MarkStudents, MarkSpares;
  }

  // The measure.

  /** Phases still ahead, and in Ready the mails still to send. */
  function Work(s: State): nat {
    5 - Rank(s.c.status.phase) + if s.c.status.phase == Ready then PendingMails(s) else 0
  }

  lemma PassWorks(m: Machine, s: State, env: Env)
    requires Good(env) && Rank(s.c.status.phase) >= 2
    ensures var t := AfterPass(m, s, env, true);
            && t.clock == s.clock && t.spec == s.spec && Rank(t.c.status.phase) >= 2
            && (Still(m, t) || 1 <= Work(t) < Work(s))
  {
    hide Reconcile, ComputeSchedule, NextPending, CountEmails, Still, MailDue, Begin;
    var j := JobOf(m, s, env);
    var t := AfterPass(m, s, env, true);
    PassPhase(j, s.c);
    BeginPlaces(j, s.c);
    if Draining(j, s.c) {
      DrainingFromReady(j, s.c);
      DrainMails(j, s.c);
      CountOneLess(s.c.status.students, t.c.status.students, NextPending(s.c.status.students, 0).value);
      PassPhaseReady(j, s.c);
    } else {
      var q := Begin(j, s.c).status.phase;
      if DesiredPhase(q, Some(ComputeSchedule(s.spec)), s.spec, s.clock) == q {
        QuietPassStill(m, s, env);
      } else {
        MovedOn(m, s, env);
      }
    }
  }

  lemma DrainingFromReady(j: Job, c: Ctx)
    requires Draining(j, c) && Rank(c.status.phase) >= 2
    ensures c.status.phase == Ready && j.now < j.spec.schedule.unlock
  {
    hide ComputeSchedule;
  }

  lemma PassPhaseReady(j: Job, c: Ctx)
    requires c.status.phase == Ready && j.now < j.spec.schedule.unlock
    ensures Reconcile(j, c).c.status.phase == Ready
  {
    hide Reconcile, ComputeSchedule;
    PassPhase(j, c);
  }

  /** If the clock is already past the next boundary, the pass has moved one phase on. */
  lemma MovedOn(m: Machine, s: State, env: Env)
    requires Rank(s.c.status.phase) >= 2
    requires var q := Begin(JobOf(m, s, env), s.c).status.phase;
             DesiredPhase(q, Some(ComputeSchedule(s.spec)), s.spec, s.clock) != q
    ensures 1 <= Work(AfterPass(m, s, env, true)) < Work(s)
  {
    hide Reconcile, ComputeSchedule, CountEmails;
    PassPhase(JobOf(m, s, env), s.c);
    BeginPlaces(JobOf(m, s, env), s.c);
  }

  /** Clean passes, one after the other, at one instant. */
  function Repeat(m: Machine, s: State, envs: seq<Env>): State
    decreases |envs|
  {
    if envs == [] then s else Repeat(m, AfterPass(m, s, envs[0], true), envs[1..])
  }

  lemma {:induction false} StillStays(m: Machine, s: State, envs: seq<Env>)
    requires Still(m, s) && forall i :: 0 <= i < |envs| ==> Good(envs[i])
    ensures Repeat(m, s, envs) == s
    decreases |envs|
  {
    hide AfterPass;
    if envs != [] {
      StillStays(m, AfterPass(m, s, envs[0], true), envs[1..]);
    }
  }

  lemma {:induction false} WorkRunsOut(m: Machine, s: State, envs: seq<Env>)
    requires Rank(s.c.status.phase) >= 2 && 1 <= Work(s) <= |envs|
    requires forall i :: 0 <= i < |envs| ==> Good(envs[i])
    ensures Still(m, Repeat(m, s, envs))
    decreases |envs|
  {
    hide AfterPass, Still, Work;
    var t := AfterPass(m, s, envs[0], true);
    PassWorks(m, s, envs[0]);
    if Still(m, t) {
      StillStays(m, t, envs[1..]);
    } else {
      WorkRunsOut(m, t, envs[1..]);
    }
  }

  /** From Ready with p pending mails, p + 3 clean passes at one instant reach a state in which status,
      cluster, mail log and metric series no longer change. */
  lemma ComesToRest(m: Machine, s: State, envs: seq<Env>)
    requires s.c.status.phase == Ready && |envs| >= PendingMails(s) + 3
    requires forall i :: 0 <= i < |envs| ==> Good(envs[i])
    ensures Still(m, Repeat(m, s, envs))
  {
    hide AfterPass, Still, PendingMails;
    WorkRunsOut(m, s, envs);
  }
}
