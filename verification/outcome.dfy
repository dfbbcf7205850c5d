/** What a provisioning pass records of its failures: who is provisioned, who has failed, and whether the
    exam counts as degraded. */
module Outcome {
  import opened ExamApi
  import opened Timetable
  import opened Objects
  import opened Store
  import opened Metrics
  import opened Oracle
  import opened Pass
  import opened Lifecycle
  import opened Alignment
  import opened Interference
  import opened Wakeup

  /** The four creations of an instance all go through. */
  ghost predicate Made(env: Env, who: Who) {
    && env.fault(Make(who, Workload)) == NoFault && env.fault(Make(who, Endpoint)) == NoFault
    && env.fault(Make(who, OfPolicy(DenyAllPart))) == NoFault && env.fault(Make(who, OfPolicy(EgressAllowPart))) == NoFault
  }

  lemma {:induction false} CreateAllFails(s: Cluster, todo: seq<Creation>, env: Env)
    ensures CreateAll(s, todo, env).err <==> exists i :: 0 <= i < |todo| && env.fault(todo[i].site) != NoFault
    decreases |todo|
  {
    if todo != [] {
      var first := Create(s, todo[0].key, todo[0].value, env.fault(todo[0].site));
      CreateAllFails(first.store, todo[1..], env);
      if i :| 0 <= i < |todo[1..]| && env.fault(todo[1..][i].site) != NoFault {
        assert todo[i + 1] == todo[1..][i];
      }
      if i :| 0 < i < |todo| && env.fault(todo[i].site) != NoFault {
        assert todo[1..][i - 1] == todo[i];
      }
    }
  }

  lemma InstanceFailsIff(j: Job, s: Cluster, who: Who, student: string, slug: string)
    ensures ProvisionInstance(j, s, who, student, slug).err <==> !Made(j.env, who)
  {
    hide CreateAll, Deployment, Service, PolicyObject;
    var todo := InstanceObjects(j, who, student, slug);
    CreateAllFails(s, todo, j.env);
    assert |todo| == 4;
    assert todo[0].site == Make(who, Workload) && todo[1].site == Make(who, Endpoint);
    assert todo[2].site == Make(who, OfPolicy(DenyAllPart)) && todo[3].site == Make(who, OfPolicy(EgressAllowPart));
  }

  /** The entry of student `k` says whether her instance was made. */
  ghost predicate StudentTold(j: Job, st: Status, k: nat) {
    && k < |st.students| && st.students[k].slug != ""
    && st.students[k].phase == if Made(j.env, StudentAt(k)) then InstancePhase.Provisioned else Failed
  }

  /** A spare that was made is recorded; another keeps what was recorded of it, which may be nothing. */
  ghost predicate SpareTold(j: Job, before: Status, after: Status, k: nat) {
    if Made(j.env, SpareAt(k)) then
      k < |after.spares| && after.spares[k].slug != "" && after.spares[k].phase == InstancePhase.Provisioned
    else if k < |before.spares| then k < |after.spares| && after.spares[k] == before.spares[k]
    else k >= |after.spares| || after.spares[k] == BlankSpare
  }

  /** How long it took is observed for a student that was not provisioned before. */
  ghost predicate Timed(j: Job, before: Status, k: nat) {
    Made(j.env, StudentAt(k)) && !(k < |before.students| && before.students[k].phase == InstancePhase.Provisioned)
  }

  ghost function TimedStudents(j: Job, before: Status, i: nat): set<Series> {
    set k | i <= k < |j.spec.students| && Timed(j, before, k) :: ProvisionDuration(j.x, j.spec.students[k].id)
  }

  lemma StudentStep(j: Job, c: Ctx, i: nat)
    requires j.env.Valid() && i < |j.spec.students| && i <= |c.status.students| && FindStudentSlug(j, c, i).Some?
    ensures var slug := FindStudentSlug(j, c, i).value;
            var d := ProvisionStudent(j, c, i, slug);
            && StudentTold(j, d.status, i) && d.status.spares == c.status.spares
            && d.status.conditions == c.status.conditions
            && (forall k :: 0 <= k < |c.status.students| && k != i ==>
                  k < |d.status.students| && d.status.students[k] == c.status.students[k])
            && |d.status.students| == (if i < |c.status.students| then |c.status.students| else i + 1)
            && d.series == c.series + (if Timed(j, c.status, i) then {ProvisionDuration(j.x, j.spec.students[i].id)} else {})
            && (ProvisionInstance(j, c.store, StudentAt(i), j.spec.students[i].id, slug).err <==> !Made(j.env, StudentAt(i)))
  {
    hide ProvisionInstance, FindStudentSlug, InstanceURL, Made;
    var slug := FindStudentSlug(j, c, i).value;
    StudentSlugNotEmpty(j, c, i);
    InstanceFailsIff(j, c.store, StudentAt(i), j.spec.students[i].id, slug);
  }

  lemma TimedNext(j: Job, c: Status, d: Status, i: nat)
    requires i < |j.spec.students| && i < |d.students|
    requires forall k :: 0 <= k < |c.students| && k != i ==> k < |d.students| && d.students[k] == c.students[k]
    requires |d.students| == if i < |c.students| then |c.students| else i + 1
    ensures TimedStudents(j, c, i) ==
              TimedStudents(j, d, i + 1) + if Timed(j, c, i) then {ProvisionDuration(j.x, j.spec.students[i].id)} else {}
  {
    hide Made;
    var one := if Timed(j, c, i) then {ProvisionDuration(j.x, j.spec.students[i].id)} else {};
    forall k: nat | i < k < |j.spec.students| ensures Timed(j, c, k) <==> Timed(j, d, k) {
    }
    hide Timed;
    forall e ensures e in TimedStudents(j, c, i) <==> e in TimedStudents(j, d, i + 1) + one {
      if e in TimedStudents(j, c, i) {
        var k: nat :| i <= k < |j.spec.students| && Timed(j, c, k) && e == ProvisionDuration(j.x, j.spec.students[k].id);
        if k > i {
          assert Timed(j, d, k);
        }
      }
      if e in TimedStudents(j, d, i + 1) {
        var k: nat :| i + 1 <= k < |j.spec.students| && Timed(j, d, k) && e == ProvisionDuration(j.x, j.spec.students[k].id);
        assert Timed(j, c, k);
      }
    }
  }

  lemma {:induction false} StudentsOutcome(j: Job, c: Ctx, i: nat, healthy: bool)
    requires j.env.Valid() && i <= |j.spec.students| && i <= |c.status.students|
    ensures var r := ProvisionStudents(j, c, i, healthy);
            && r.c.status.spares == c.status.spares && r.c.status.conditions == c.status.conditions
            && (!r.err ==>
                  && (forall k :: i <= k < |j.spec.students| ==> StudentTold(j, r.c.status, k))
                  && (forall k :: 0 <= k < i ==> k < |r.c.status.students| && r.c.status.students[k] == c.status.students[k])
                  && r.c.series == c.series + TimedStudents(j, c.status, i)
                  && (r.healthy <==> healthy && forall k: nat :: i <= k < |j.spec.students| ==> Made(j.env, StudentAt(k))))
            && (r.err ==> exists who :: j.env.slug(who).None?)
    decreases |j.spec.students| - i
  {
    hide ProvisionInstance, FindStudentSlug, InstanceURL, Made, Timed, StudentTold, TimedStudents, ProvisionStudent;
    if i == |j.spec.students| {
      assert TimedStudents(j, c.status, i) == {} by { hide *; NoneTimed(j, c.status); }
    } else if FindStudentSlug(j, c, i).Some? {
      var slug := FindStudentSlug(j, c, i).value;
      var d := ProvisionStudent(j, c, i, slug);
      StudentStep(j, c, i);
      TimedNext(j, c.status, d.status, i);
      var ok := !ProvisionInstance(j, c.store, StudentAt(i), j.spec.students[i].id, slug).err;
      StudentsOutcome(j, d, i + 1, healthy && ok);
      var r := ProvisionStudents(j, d, i + 1, healthy && ok);
      assert ProvisionStudents(j, c, i, healthy) == r;
      SameTold(j, d.status, r.c.status, i);
      if !r.err {
        forall k | 0 <= k < i ensures k < |r.c.status.students| && r.c.status.students[k] == c.status.students[k] {
          assert d.status.students[k] == c.status.students[k];
        }
        var mine := d.status.students[i];
        assert r.c.status.students[i] == mine;
      }
    } else {
      NoSlugDrawn(j, c, i);
    }
  }

  lemma NoneTimed(j: Job, st: Status)
    ensures TimedStudents(j, st, |j.spec.students|) == {}
  {
  }

  lemma NoSlugDrawn(j: Job, c: Ctx, i: nat)
    requires i < |j.spec.students| && FindStudentSlug(j, c, i).None?
    ensures j.env.slug(StudentAt(i)).None?
  {
    hide LeftoverStudentSlug;
  }

  lemma SameTold(j: Job, a: Status, b: Status, k: nat)
    requires StudentTold(j, a, k)
    ensures k < |a.students| && (k < |b.students| && b.students[k] == a.students[k] ==> StudentTold(j, b, k))
  {
    hide Made;
  }

  // Spares.

  ghost predicate SpareTimed(j: Job, before: Status, after: Ctx, k: nat) {
    Made(j.env, SpareAt(k)) && !(k < |before.spares| && before.spares[k].phase == InstancePhase.Provisioned) ==>
      k < |after.status.spares| && ProvisionDuration(j.x, after.status.spares[k].slug) in after.series
  }

  lemma SpareStep(j: Job, c: Ctx, i: nat)
    requires j.env.Valid() && FindSpareSlug(j, c, i).Some?
    ensures var slug := FindSpareSlug(j, c, i).value;
            var d := ProvisionSpare(j, c, i, slug);
            && d.status.students == c.status.students && d.status.conditions == c.status.conditions
            && (Made(j.env, SpareAt(i)) ==>
                  i < |d.status.spares| && d.status.spares[i].slug != "" && d.status.spares[i].phase == InstancePhase.Provisioned)
            && (!Made(j.env, SpareAt(i)) ==> d.status == c.status)
            && |c.status.spares| <= |d.status.spares|
            && (forall k :: 0 <= k < |d.status.spares| && k != i ==>
                  d.status.spares[k] == if k < |c.status.spares| then c.status.spares[k] else BlankSpare)
            && SpareTimed(j, c.status, d, i) && c.series <= d.series
            && (ProvisionInstance(j, c.store, SpareAt(i), "", slug).err <==> !Made(j.env, SpareAt(i)))
  {
    hide ProvisionInstance, FindSpareSlug, InstanceURL, Made;
    SpareSlugNotEmpty(j, c, i);
    InstanceFailsIff(j, c.store, SpareAt(i), "", FindSpareSlug(j, c, i).value);
  }

  lemma NoSpareDrawn(j: Job, c: Ctx, i: nat)
    requires FindSpareSlug(j, c, i).None?
    ensures j.env.slug(SpareAt(i)).None?
  {
    hide LeftoverSpareSlugs;
  }

  /** A slot keeps what it holds; one beyond the list may become blank. */
  ghost predicate SlotKept(a: Status, b: Status, k: nat) {
    if k < |a.spares| then k < |b.spares| && b.spares[k] == a.spares[k]
    else k >= |b.spares| || b.spares[k] == BlankSpare
  }

  lemma ToldLater(j: Job, a: Status, b: Status, c: Status, k: nat)
    requires SlotKept(a, b, k) && SpareTold(j, b, c, k)
    ensures SpareTold(j, a, c, k)
  {
    hide Made;
  }

  lemma ToldAlready(j: Job, a: Status, b: Status, c: Status, k: nat)
    requires SpareTold(j, a, b, k) && SlotKept(b, c, k)
    ensures SpareTold(j, a, c, k)
  {
    hide Made;
  }

  lemma TimedLater(j: Job, a: Status, b: Status, c: Ctx, k: nat)
    requires SlotKept(a, b, k) && SpareTimed(j, b, c, k)
    ensures SpareTimed(j, a, c, k)
  {
    hide Made;
  }

  lemma TimedAlready(j: Job, a: Status, b: Ctx, c: Ctx, k: nat)
    requires SpareTimed(j, a, b, k) && SlotKept(b.status, c.status, k) && b.series <= c.series
    ensures SpareTimed(j, a, c, k)
  {
    hide Made;
  }

  lemma {:induction false} SparesOutcome(j: Job, c: Ctx, i: nat, healthy: bool)
    requires j.env.Valid()
    ensures var r := ProvisionSpares(j, c, i, healthy);
            && r.c.status.students == c.status.students && r.c.status.conditions == c.status.conditions
            && (!r.err ==>
                  && (forall k: nat :: i <= k < j.spec.spares ==> SpareTold(j, c.status, r.c.status, k))
                  && (forall k: nat :: k < i ==> SlotKept(c.status, r.c.status, k))
                  && (forall k: nat :: i <= k < j.spec.spares ==> SpareTimed(j, c.status, r.c, k)) && c.series <= r.c.series
                  && (r.healthy <==> healthy && forall k: nat :: i <= k < j.spec.spares ==> Made(j.env, SpareAt(k))))
            && (r.err ==> exists who :: j.env.slug(who).None?)
    decreases j.spec.spares - i
  {
    hide ProvisionInstance, FindSpareSlug, Made, SpareTold, SlotKept, ProvisionSpare, SpareTimed;
    if i >= j.spec.spares {
      forall k: nat | k < i ensures SlotKept(c.status, c.status, k) { SlotStays(c.status, k); }
    } else if FindSpareSlug(j, c, i).Some? {
      var slug := FindSpareSlug(j, c, i).value;
      var d := ProvisionSpare(j, c, i, slug);
      SpareStep(j, c, i);
      var ok := !ProvisionInstance(j, c.store, SpareAt(i), "", slug).err;
      SparesOutcome(j, d, i + 1, healthy && ok);
      var r := ProvisionSpares(j, d, i + 1, healthy && ok);
      assert ProvisionSpares(j, c, i, healthy) == r;
      if !r.err {
        forall k: nat | k != i ensures SlotKept(c.status, d.status, k) { SlotAfter(j, c.status, d.status, i, k); }
        forall k: nat | i <= k < j.spec.spares
          ensures SpareTold(j, c.status, r.c.status, k) && SpareTimed(j, c.status, r.c, k)
        {
          if k == i {
            ToldHere(j, c.status, d.status, i);
            ToldAlready(j, c.status, d.status, r.c.status, i);
            TimedAlready(j, c.status, d, r.c, i);
          } else {
            ToldLater(j, c.status, d.status, r.c.status, k);
            TimedLater(j, c.status, d.status, r.c, k);
          }
        }
        forall k: nat | k < i ensures SlotKept(c.status, r.c.status, k) {
          KeptTwice(c.status, d.status, r.c.status, k);
        }
      }
    } else {
      NoSpareDrawn(j, c, i);
    }
  }

  lemma SlotStays(a: Status, k: nat)
    ensures SlotKept(a, a, k)
  {
  }

  lemma KeptTwice(a: Status, b: Status, c: Status, k: nat)
    requires SlotKept(a, b, k) && SlotKept(b, c, k)
    ensures SlotKept(a, c, k)
  {
  }

  lemma SlotAfter(j: Job, a: Status, b: Status, i: nat, k: nat)
    requires k != i && |a.spares| <= |b.spares|
    requires forall n :: 0 <= n < |b.spares| && n != i ==> b.spares[n] == if n < |a.spares| then a.spares[n] else BlankSpare
    ensures SlotKept(a, b, k)
  {
  }

  lemma ToldHere(j: Job, a: Status, b: Status, i: nat)
    requires Made(j.env, SpareAt(i)) ==>
               i < |b.spares| && b.spares[i].slug != "" && b.spares[i].phase == InstancePhase.Provisioned
    requires !Made(j.env, SpareAt(i)) ==> b == a
    ensures SpareTold(j, a, b, i)
  {
    hide Made;
  }

  // The pass.

  /** The namespace cannot be made, or the platform's certificate cannot be copied into it. */
  ghost predicate Unprepared(j: Job) {
    j.env.fault(NamespaceCreate) != NoFault || (j.platform.tlsSecret != "" && j.env.fault(SecretCopy) != NoFault)
  }

  /** All creations of the pass go through. */
  ghost predicate AllMade(j: Job) {
    && (forall k: nat :: k < |j.spec.students| ==> Made(j.env, StudentAt(k)))
    && (forall k: nat :: k < j.spec.spares ==> Made(j.env, SpareAt(k)))
  }

  /** The outcome of one instance is recorded for each student and spare, and the exam counts as degraded
      from the first pass on in which a creation failed. */
  ghost predicate Tells(j: Job, before: Status, after: Status) {
    && (forall k: nat :: k < |j.spec.students| ==> StudentTold(j, after, k))
    && (forall k: nat :: k < j.spec.spares ==> SpareTold(j, before, after, k))
    && (ProvisioningDegraded in after.conditions <==> ProvisioningDegraded in before.conditions || !AllMade(j))
  }

  /** How long it took is observed for each instance that was not provisioned before. */
  ghost predicate Observes(j: Job, before: Status, after: Ctx) {
    TimedStudents(j, before, 0) <= after.series && forall k: nat :: k < j.spec.spares ==> SpareTimed(j, before, after, k)
  }

  /** A pass that enters Ready sends the instructor the links recorded for the spares, if there are any. */
  function SpareMail(j: Job, after: Status): seq<Mail> {
    if after.phase == Ready && j.spec.spares > 0 then
      [Mail(j.spec.email.instructorEmail,
            SpareURLs(seq(|after.spares|, i requires 0 <= i < |after.spares| => after.spares[i].url)),
            !j.env.undelivered(SparesLetter))]
    else []
  }

  lemma SettleTells(j: Job, c: Ctx, healthy: bool)
    requires c.status.phase != Ready
    ensures var o := Settle(j, c, healthy).c.status;
            && o.students == c.status.students && o.spares == c.status.spares
            && (ProvisioningDegraded in o.conditions <==> ProvisioningDegraded in c.status.conditions || !healthy)
            && (o.phase == Ready ==> ProvisionedCondition in o.conditions)
            && !Settle(j, c, healthy).err
            && Settle(j, c, healthy).c.mails == c.mails + SpareMail(j, o)
            && forall e: Series :: e in c.series && !e.PhaseDuration? ==> e in Settle(j, c, healthy).c.series
  {
    hide Cleanup, AllInstancesHealthy, ValidSlugs;
    var o := Settle(j, c, healthy).c.status;
    assert SpareURLsOf(o.spares) == seq(|o.spares|, i requires 0 <= i < |o.spares| => o.spares[i].url);
  }

  /** A provisioning pass meets an error exactly when the exam is not prepared for or a slug cannot be
      drawn. In the first case nothing is recorded and no object of an instance is touched. A pass without
      error records for every student and spare what became of it. */
  lemma ProvisioningTells(j: Job, c: Ctx)
    requires j.env.Valid() && c.status.phase == Phase.Provisioning
    ensures var o := ReconcileProvisioning(j, c);
            && (Unprepared(j) ==>
                  o.err && o.c.status == c.status
                  && forall k :: k != NamespaceKey(j.ns) ==>
                       (k in o.c.store <==> k in c.store) && (k in c.store ==> o.c.store[k] == c.store[k]))
            && (o.err ==> Unprepared(j) || exists who :: j.env.slug(who).None?)
            && (!o.err ==> Tells(j, c.status, o.c.status) && Observes(j, c.status, o.c)
                           && (o.c.status.phase == Ready ==> ProvisionedCondition in o.c.status.conditions))
            && o.c.mails == c.mails + SpareMail(j, o.c.status)
  {
    hide ProvisionStudents, ProvisionSpares, Settle, NamespaceObject, Made, StudentTold, SpareTold, TimedStudents;
    var made := Create(c.store, NamespaceKey(j.ns), NamespaceObject(j.x), j.env.fault(NamespaceCreate));
    var c0 := c.(store := made.store);
    assert made.err || SecretFails(j) <==> Unprepared(j);
    if !Unprepared(j) {
      StudentsOutcome(j, c0, 0, true);
      StudentsKeepPhase(j, c0, 0, true);
      var students := ProvisionStudents(j, c0, 0, true);
      if !students.err {
        SparesOutcome(j, students.c, 0, students.healthy);
        SparesKeepPhase(j, students.c, 0, students.healthy);
        var spares := ProvisionSpares(j, students.c, 0, students.healthy);
        if !spares.err {
          SettleTells(j, spares.c, spares.healthy);
          var o := Settle(j, spares.c, spares.healthy).c.status;
          forall k: nat | k < |j.spec.students| ensures StudentTold(j, o, k) {
            assert StudentTold(j, students.c.status, k);
            SameStudentsTold(j, students.c.status, o, k);
          }
          forall k: nat | k < j.spec.spares ensures SpareTold(j, c.status, o, k) {
            SameSparesTold(j, students.c.status, c.status, spares.c.status, o, k);
          }
          forall k: nat | k < j.spec.spares ensures SpareTimed(j, c.status, Settle(j, spares.c, spares.healthy).c, k) {
            SameSparesTimed(j, students.c.status, c.status, spares.c, Settle(j, spares.c, spares.healthy).c, k);
          }
          AllTimed(j, c.status, students.c.series, Settle(j, spares.c, spares.healthy).c.series);
        }
      }
    }
  }

  lemma SameStudentsTold(j: Job, a: Status, b: Status, k: nat)
    requires StudentTold(j, a, k) && b.students == a.students
    ensures StudentTold(j, b, k)
  {
  }

  lemma SameSparesTold(j: Job, a: Status, a': Status, b: Status, b': Status, k: nat)
    requires SpareTold(j, a, b, k) && a'.spares == a.spares && b'.spares == b.spares
    ensures SpareTold(j, a', b', k)
  {
  }

  lemma SameSparesTimed(j: Job, a: Status, a': Status, b: Ctx, b': Ctx, k: nat)
    requires SpareTimed(j, a, b, k) && a'.spares == a.spares && b'.status.spares == b.status.spares
    requires forall e: Series :: e in b.series && !e.PhaseDuration? ==> e in b'.series
    ensures SpareTimed(j, a', b', k)
  {
    hide Made;
  }

  lemma AllTimed(j: Job, before: Status, s: set<Series>, t: set<Series>)
    requires TimedStudents(j, before, 0) <= s && forall e: Series :: e in s && !e.PhaseDuration? ==> e in t
    ensures TimedStudents(j, before, 0) <= t
  {
    hide Made;
  }

  lemma SameTimed(j: Job, a: Status, b: Status)
    requires a.students == b.students
    ensures TimedStudents(j, a, 0) == TimedStudents(j, b, 0)
  {
    hide Made;
    assert forall k: nat :: Timed(j, a, k) <==> Timed(j, b, k);
  }

  /** The same for a whole pass that works in Provisioning, from any state. */
  lemma PassTells(j: Job, c: Ctx)
    requires j.env.Valid() && Begin(j, c).status.phase == Phase.Provisioning
    ensures var o := Reconcile(j, c);
            && (Unprepared(j) ==>
                  && o.err && o.c.status.students == c.status.students && o.c.status.spares == c.status.spares
                  && forall k :: k != NamespaceKey(j.ns) ==>
                       (k in o.c.store <==> k in c.store) && (k in c.store ==> o.c.store[k] == c.store[k]))
            && (o.err ==> Unprepared(j) || exists who :: j.env.slug(who).None?)
            && (!o.err ==> Tells(j, c.status, o.c.status) && Observes(j, c.status, o.c)
                           && (o.c.status.phase == Ready ==> ProvisionedCondition in o.c.status.conditions))
            && o.c.mails == c.mails + SpareMail(j, o.c.status)
  {
    hide ReconcileProvisioning, ComputeSchedule, Summarize, Made, StudentTold, SpareTold;
    var b := Begin(j, c);
    BeginPlaces(j, c);
    ProvisioningTells(j, b);
    var p, o := ReconcileProvisioning(j, b), Reconcile(j, c);
    if !p.err {
      forall k: nat | k < |j.spec.students| ensures StudentTold(j, o.c.status, k) {
        SameStudentsTold(j, p.c.status, o.c.status, k);
      }
      forall k: nat | k < j.spec.spares ensures SpareTold(j, c.status, o.c.status, k) {
        SameSparesTold(j, b.status, c.status, p.c.status, o.c.status, k);
      }
      forall k: nat | k < j.spec.spares ensures SpareTimed(j, c.status, o.c, k) {
        SameSparesTimed(j, b.status, c.status, p.c, o.c, k);
      }
      SameTimed(j, b.status, c.status);
    }
  }
}
