/** What the computed instants are, in whole numbers: how long an exam lasts under a multiplier p / q, and
    what stands in for durations that are not given. */
module Instants {
  import opened Prelude
  import opened ExamApi
  import opened Timetable
  import opened Webhook
  import opened Objects
  import opened Store
  import opened Oracle
  import opened Pass
  import opened System
  import opened Lifecycle
  import opened Wakeup

  /** The spec's multiplier is p / q; one that is not set means 3 / 2. */
  ghost predicate StretchedBy(spec: Spec, p: int, q: int) {
    && p >= 0 && q > 0
    && if spec.schedule.timeMultiplier == 0.0 then p == 3 && q == 2
       else spec.schedule.timeMultiplier == p as real / q as real
  }

  /** The time from unlock to lock is the duration times p / q, without what is left over. */
  ghost predicate Lasts(spec: Spec, p: int, q: int, length: int) {
    q * length <= p * spec.schedule.duration < q * length + q
  }

  lemma Whole(d: int, n: int, q: int)
    requires n as real <= d as real < n as real + q as real
    ensures n <= d < n + q
  {
    assert (n + q) as real == n as real + q as real;
  }

  lemma ScaledReal(x: real, n: int, d: int, p: int, q: int)
    requires q > 0 && x == d as real * (p as real / q as real) && n as real <= x < n as real + 1.0
    ensures q * n <= p * d < q * n + q
  {
    var r, y := q as real, d as real * (p as real);
    assert r * x == y by {
      assert r * (p as real / r) == p as real;
      assert r * x == d as real * (r * (p as real / r));
    }
    Stretch(r, n as real, x, y);
    Product(p, d);
    Product(q, n);
    Whole(p * d, q * n, q);
  }

  lemma Stretch(r: real, n: real, x: real, y: real)
    requires r > 0.0 && n <= x < n + 1.0 && r * x == y
    ensures r * n <= y < r * n + r
  {
    var low, high := x - n, n + 1.0 - x;
    Spread(r, n, low);
    Spread(r, x, high);
    Spread(r, n, 1.0);
    assert n + low == x && x + high == n + 1.0;
    Positive(r, high);
  }

  lemma Spread(r: real, a: real, b: real)
    ensures r * (a + b) == r * a + r * b
  {
  }

  lemma Positive(r: real, e: real)
    requires r > 0.0 && e > 0.0
    ensures r * e > 0.0
  {
  }

  lemma Product(a: int, b: int)
    ensures a as real * (b as real) == (a * b) as real && b as real * (a as real) == (a * b) as real
  {
  }

  lemma Scaled(d: int, p: int, q: int, m: real)
    requires d >= 0 && p >= 0 && q > 0 && m == p as real / q as real
    ensures var n := Truncate(d as real * m); q * n <= p * d < q * n + q
  {
    var x := d as real * m;
    assert m >= 0.0;
    assert x >= 0.0;
    assert Truncate(x) == x.Floor;
    ScaledReal(x, x.Floor, d, p, q);
  }

  lemma LockIs(spec: Spec, p: int, q: int)
    requires StretchedBy(spec, p, q) && spec.schedule.duration >= 0
    ensures Lasts(spec, p, q, ComputeSchedule(spec).lock - spec.schedule.unlock)
  {
    hide Truncate;
    var m := EffectiveMultiplier(spec.schedule.timeMultiplier);
    assert 1.5 == 3 as real / 2 as real;
    Scaled(spec.schedule.duration, p, q, m);
  }

  /** An hour, half an hour and a day take the place of durations that are zero. */
  ghost predicate InstantsOf(spec: Spec, t: Times) {
    var s := spec.schedule;
    && s.unlock - t.provision == (if s.provisionBefore == 0 then 3600 * 1_000_000_000 else s.provisionBefore)
    && s.unlock - t.email == (if spec.email.before == 0 then 1800 * 1_000_000_000 else spec.email.before)
    && t.deadline - t.lock == (if s.retention == 0 then 86_400 * 1_000_000_000 else s.retention)
    && forall p, q :: StretchedBy(spec, p, q) && s.duration >= 0 ==> Lasts(spec, p, q, t.lock - s.unlock)
  }

  lemma ScheduleIs(spec: Spec)
    ensures InstantsOf(spec, ComputeSchedule(spec))
  {
    hide Truncate;
    forall p, q | StretchedBy(spec, p, q) && spec.schedule.duration >= 0
      ensures Lasts(spec, p, q, ComputeSchedule(spec).lock - spec.schedule.unlock)
    {
      LockIs(spec, p, q);
    }
  }

  // What a pass records and goes by.

  lemma ProvisioningKeepsTimes(j: Job, c: Ctx)
    ensures ReconcileProvisioning(j, c).c.status.times == c.status.times
  {
    hide Cleanup, AllInstancesHealthy, ValidSlugs, ProvisionStudents, ProvisionSpares, SpareURLsOf;
    var made := Create(c.store, NamespaceKey(j.ns), NamespaceObject(j.x), j.env.fault(NamespaceCreate));
    var c0 := c.(store := made.store);
    StudentsKeepPhase(j, c0, 0, true);
    SparesKeepPhase(j, ProvisionStudents(j, c0, 0, true).c, 0, ProvisionStudents(j, c0, 0, true).healthy);
  }

  lemma HandlersKeepTimes(j: Job, c: Ctx)
    requires c.status.phase != Phase.Provisioning
    ensures Dispatch(j, c).c.status.times == c.status.times
  {
    hide EnforceFrom, Entries, NextWake, MailDue, DryRunDue, FailedMails, CountStudents, DeleteIngresses,
         MarkStudents, MarkSpares;
  }

  /** Every pass, whatever fails, records the instants of the spec it read. */
  lemma PassRecordsInstants(j: Job, c: Ctx)
    ensures var t := Reconcile(j, c).c.status.times; t.Some? && InstantsOf(j.spec, t.value)
  {
    hide Dispatch, Summarize, ComputeSchedule, InstantsOf;
    var b := Begin(j, c);
    BeginPlaces(j, c);
    ScheduleIs(j.spec);
    if b.status.phase == Phase.Provisioning {
      assert Dispatch(j, b) == ReconcileProvisioning(j, b) by { hide *; DispatchProvisions(j, b); }
      ProvisioningKeepsTimes(j, b);
    } else {
      HandlersKeepTimes(j, b);
    }
  }

  lemma DispatchProvisions(j: Job, c: Ctx)
    requires c.status.phase == Phase.Provisioning
    ensures Dispatch(j, c) == ReconcileProvisioning(j, c)
  {
    hide ReconcileProvisioning;
  }

  /** An Unlocked exam is locked by the first pass from the end of its stretched duration on. */
  lemma LocksWhenOver(m: Machine, s: State, env: Env, p: int, q: int)
    requires s.c.status.phase == Phase.Unlocked && StretchedBy(s.spec, p, q) && s.spec.schedule.duration >= 0
    ensures AfterPass(m, s, env, true).c.status.phase == Phase.Locked <==>
              p * s.spec.schedule.duration < q * (s.clock - s.spec.schedule.unlock) + q
  {
    hide Reconcile, LockTime;
    PassPhase(JobOf(m, s, env), s.c);
    LockIs(s.spec, p, q);
    Between(q, ComputeSchedule(s.spec).lock - s.spec.schedule.unlock, s.clock - s.spec.schedule.unlock,
      p * s.spec.schedule.duration);
  }

  lemma Between(q: int, n: int, k: int, d: int)
    requires q > 0 && q * n <= d < q * n + q
    ensures n <= k <==> d < q * k + q
    ensures k <= n <==> q * k <= d
  {
    if n <= k {
      assert q * n <= q * k;
    } else {
      assert q * (k + 1) <= q * n;
    }
    if k < n {
      assert q * k <= q * n;
    } else if n < k {
      assert q * (n + 1) <= q * k;
    }
  }

  /** A changed length is accepted for an Unlocked exam exactly when the exam would not be over by now. */
  lemma ExtensionAcceptedIff(before: Spec, after: Spec, now: int, p: int, q: int)
    requires ValidSpec(after) && SameIdentity(before, after) && !SameLength(before.schedule, after.schedule)
    requires StretchedBy(after, p, q)
    ensures ValidateUpdate(Phase.Unlocked, before, after, now).Accepted? <==>
              q * (now - after.schedule.unlock) <= p * after.schedule.duration
  {
    hide LockTime;
    LockIs(after, p, q);
    Between(q, ComputeSchedule(after).lock - after.schedule.unlock, now - after.schedule.unlock, p * after.schedule.duration);
  }
}
