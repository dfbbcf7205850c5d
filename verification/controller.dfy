/** The reconciler as it runs: handlers that update an exam's status, the cluster, the mail log and the
    metric series in place, each proved to do what the functions of module Pass say. */
module Controller {
  import opened Prelude
  import opened ExamApi
  import opened Timetable
  import opened Policy
  import opened Objects
  import opened Store
  import opened Metrics
  import opened Oracle
  import opened Pass

  class Exam {
    const x: Ref
    const spec: Spec
    var status: Status

    constructor (x: Ref, spec: Spec, status: Status)
      ensures this.x == x && this.spec == spec && this.status == status
    {
      this.x := x;
      this.spec := spec;
      this.status := status;
    }
  }

  class ExamReconciler {
    const platform: Platform
    const metrics: ExamMetrics
    var store: Cluster
    var mails: seq<Mail>

    constructor (platform: Platform, metrics: ExamMetrics, store: Cluster)
      ensures this.platform == platform && this.metrics == metrics && this.store == store && mails == []
    {
      this.platform := platform;
      this.metrics := metrics;
      this.store := store;
      this.mails := [];
    }

    ghost function View(exam: Exam): Ctx
      reads this, exam, metrics
    {
      Ctx(exam.status, store, mails, metrics.series)
    }

    // API calls.

    method Create(k: Key, o: Object, f: Fault) returns (err: bool)
      modifies this`store
      ensures Reply(store, err) == Store.Create(old(store), k, o, f)
    {
      if f != Refused && k !in store {
        store := store[k := o];
      }
      err := f != NoFault;
    }

    method Delete(k: Key, f: Fault) returns (err: bool)
      modifies this`store
      ensures Reply(store, err) == Store.Delete(old(store), k, f)
    {
      if f != Refused {
        store := store - {k};
      }
      err := f != NoFault;
    }

    method DeleteNamespace(ns: string, f: Fault) returns (err: bool)
      modifies this`store
      ensures Reply(store, err) == Store.DeleteNamespace(old(store), ns, f)
    {
      if f != Refused {
        store := map k | k in store && k.namespace != ns && k != NamespaceKey(ns) :: store[k];
      }
      err := f != NoFault;
    }

    method List(j: Job, site: Site, kind: Kind, selector: LabelSet) returns (items: seq<Key>, err: bool)
      ensures err == ListFails(j.env, site)
      ensures items == if err then [] else j.env.order(site, Selected(store, kind, j.ns, selector))
    {
      if j.env.fault(site) != NoFault {
        return [], true;
      }
      items, err := j.env.order(site, Selected(store, kind, j.ns, selector)), false;
    }

    method SendEmail(j: Job, letter: Letter, to: string, content: Content) returns (err: bool)
      modifies this`mails
      ensures mails == old(mails) + [Mail(to, content, !j.env.undelivered(letter))]
      ensures err == j.env.undelivered(letter)
    {
      err := j.env.undelivered(letter);
      mails := mails + [Mail(to, content, !err)];
    }

    // Slugs.

    method FindOrGenerateSlug(exam: Exam, j: Job, i: nat) returns (r: Option<string>)
      requires i < |j.spec.students|
      ensures r == FindStudentSlug(j, View(exam), i)
    {
      var id := j.spec.students[i].id;
      var students := exam.status.students;
      for k := 0 to |students|
        invariant FirstSlug(students, id) == FirstSlug(students[k..], id)
      {
        if students[k].id == id && students[k].slug != "" {
          return Some(students[k].slug);
        }
        assert students[k..][1..] == students[k + 1..];
      }
      var items, err := List(j, Lookup(StudentAt(i)), DeploymentKind, StudentSelector(j.x, id));
      if !err && |items| > 0 {
        var slug := Label(store, items[0], LabelSlug);
        if slug != "" {
          return Some(slug);
        }
      }
      r := j.env.slug(StudentAt(i));
    }

    method CollectSpareSlugs(items: seq<Key>) returns (slugs: seq<string>)
      ensures slugs == SpareSlugs(store, items)
    {
      hide Label, HasLabel;
      slugs := [];
      for k := 0 to |items|
        invariant slugs + SpareSlugs(store, items[k..]) == SpareSlugs(store, items)
      {
        if !HasLabel(store, items[k], LabelStudent) {
          var slug := Label(store, items[k], LabelSlug);
          if slug != "" {
            slugs := slugs + [slug];
          }
        }
        assert items[k..][1..] == items[k + 1..];
      }
      assert items[|items|..] == [];
    }

    method FindOrGenerateSpareSlug(exam: Exam, j: Job, i: nat) returns (r: Option<string>)
      ensures r == FindSpareSlug(j, View(exam), i)
    {
      hide SpareSlugs, SortStrings, Selected;
      if i < |exam.status.spares| && exam.status.spares[i].slug != "" {
        return Some(exam.status.spares[i].slug);
      }
      var items, err := List(j, Lookup(SpareAt(i)), DeploymentKind, OwnerLabels(j.x));
      if !err {
        var spareDeployments := CollectSpareSlugs(items);
        spareDeployments := SortStrings(spareDeployments);
        assert spareDeployments == LeftoverSpareSlugs(j, store, i);
        if i < |spareDeployments| {
          return Some(spareDeployments[i]);
        }
      }
      r := j.env.slug(SpareAt(i));
    }

    // Instances.

    method ProvisionInstance(j: Job, who: Who, student: string, slug: string) returns (err: bool)
      modifies this`store
      ensures Reply(store, err) == Pass.ProvisionInstance(j, old(store), who, student, slug)
    {
      ghost var todo := InstanceObjects(j, who, student, slug);
      ghost var s0 := store;
      assert todo[1..][1..] == todo[2..] && todo[2..][1..] == todo[3..] && todo[3..][1..] == [];
      assert todo[1..][0] == todo[1] && todo[2..][0] == todo[2] && todo[3..][0] == todo[3];
      hide Deployment, Service, PolicyObject;
      err := Create(DeploymentKey(j.ns, slug), Deployment(j.x, j.spec, student, slug), j.env.fault(Make(who, Workload)));
      if err { return; }
      assert CreateAll(s0, todo, j.env) == CreateAll(store, todo[1..], j.env);
      err := Create(ServiceKey(j.ns, slug), Service(j.x, j.spec, student, slug), j.env.fault(Make(who, Endpoint)));
      if err { return; }
      assert CreateAll(s0, todo, j.env) == CreateAll(store, todo[2..], j.env);
      err := Create(PolicyKey(j.ns, DenyAllPart, slug), PolicyObject(j.x, j.spec, DenyAllPart, student, slug),
                    j.env.fault(Make(who, OfPolicy(DenyAllPart))));
      if err { return; }
      assert CreateAll(s0, todo, j.env) == CreateAll(store, todo[3..], j.env);
      err := Create(PolicyKey(j.ns, EgressAllowPart, slug), PolicyObject(j.x, j.spec, EgressAllowPart, student, slug),
                    j.env.fault(Make(who, OfPolicy(EgressAllowPart))));
    }

    method SetStudentStatus(exam: Exam, j: Job, i: nat, slug: string, phase: InstancePhase)
      requires i < |j.spec.students|
      modifies exam
      ensures exam.status == SetStudent(j, old(exam.status), i, slug, phase)
    {
      var students := exam.status.students;
      while |students| <= i
        invariant |students| <= Max(i + 1, |exam.status.students|)
        invariant students == exam.status.students + seq(|students| - |exam.status.students|, _ => BlankStudent)
        invariant |students| >= |exam.status.students|
      {
        students := students + [BlankStudent];
      }
      exam.status := exam.status.(students := students[i := StudentEntry(j, i, slug, phase)]);
    }

    method SetSpareStatus(exam: Exam, j: Job, i: nat, slug: string, phase: InstancePhase)
      modifies exam
      ensures exam.status == SetSpare(j, old(exam.status), i, slug, phase)
    {
      var spares := exam.status.spares;
      while |spares| <= i
        invariant |spares| <= Max(i + 1, |exam.status.spares|)
        invariant spares == exam.status.spares + seq(|spares| - |exam.status.spares|, _ => BlankSpare)
        invariant |spares| >= |exam.status.spares|
      {
        spares := spares + [BlankSpare];
      }
      exam.status := exam.status.(spares := spares[i := SpareEntry(j, slug, phase)]);
    }

    method ProvisionAllStudents(exam: Exam, j: Job) returns (healthy: bool, err: bool)
      modifies this`store, exam, metrics
      ensures Progress(View(exam), healthy, err) == ProvisionStudents(j, old(View(exam)), 0, true)
    {
      hide Pass.ProvisionInstance, FindStudentSlug, StudentEntry;
      healthy, err := true, false;
      ghost var c0 := View(exam);
      for i := 0 to |j.spec.students|
        invariant mails == old(mails)
        invariant !err && ProvisionStudents(j, c0, 0, true) == ProvisionStudents(j, View(exam), i, healthy)
      {
        ghost var c := View(exam);
        var slug := FindOrGenerateSlug(exam, j, i);
        if slug.None? {
          err := true;
          return;
        }
        var failed := ProvisionInstance(j, StudentAt(i), j.spec.students[i].id, slug.value);
        if failed {
          SetStudentStatus(exam, j, i, slug.value, Failed);
          healthy := false;
        } else {
          var was := i < |exam.status.students| && exam.status.students[i].phase == InstancePhase.Provisioned;
          SetStudentStatus(exam, j, i, slug.value, InstancePhase.Provisioned);
          if !was {
            metrics.Touch(ProvisionDuration(j.x, j.spec.students[i].id));
          }
        }
        assert View(exam) == ProvisionStudent(j, c, i, slug.value);
      }
    }

    method ProvisionAllSpares(exam: Exam, j: Job, healthyStudents: bool) returns (healthy: bool, err: bool)
      modifies this`store, exam, metrics
      ensures Progress(View(exam), healthy, err) == ProvisionSpares(j, old(View(exam)), 0, healthyStudents)
    {
      hide Pass.ProvisionInstance, FindSpareSlug, SpareEntry;
      healthy, err := healthyStudents, false;
      ghost var c0 := View(exam);
      var i := 0;
      while i < j.spec.spares
        invariant 0 <= i <= Max(j.spec.spares, 0) && mails == old(mails)
        invariant !err && ProvisionSpares(j, c0, 0, healthyStudents) == ProvisionSpares(j, View(exam), i, healthy)
      {
        ghost var c := View(exam);
        var slug := FindOrGenerateSpareSlug(exam, j, i);
        if slug.None? {
          err := true;
          return;
        }
        var failed := ProvisionInstance(j, SpareAt(i), "", slug.value);
        if failed {
          healthy := false;
        } else {
          var was := i < |exam.status.spares| && exam.status.spares[i].phase == InstancePhase.Provisioned;
          SetSpareStatus(exam, j, i, slug.value, InstancePhase.Provisioned);
          if !was {
            metrics.Touch(ProvisionDuration(j.x, slug.value));
          }
        }
        assert View(exam) == ProvisionSpare(j, c, i, slug.value);
        i := i + 1;
      }
    }

    // Clean-up and the gate.

    method CollectValidSlugs(exam: Exam) returns (slugs: set<string>)
      ensures slugs == ValidSlugs(exam.status)
    {
      var st := exam.status;
      slugs := {};
      for i := 0 to |st.students|
        invariant slugs == set k | 0 <= k < i && st.students[k].slug != "" :: st.students[k].slug
      {
        if st.students[i].slug != "" {
          slugs := slugs + {st.students[i].slug};
        }
      }
      ghost var first := slugs;
      for i := 0 to |st.spares|
        invariant slugs == first + set k | 0 <= k < i && st.spares[k].slug != "" :: st.spares[k].slug
      {
        if st.spares[i].slug != "" {
          slugs := slugs + {st.spares[i].slug};
        }
      }
    }

    method CleanupOrphansOf(j: Job, valid: set<string>, kind: Kind) returns (err: bool)
      modifies this`store
      ensures Reply(store, err) == CleanupKind(j, old(store), valid, kind)
    {
      var items;
      items, err := List(j, CleanupList(kind), kind, OwnerLabels(j.x));
      if err {
        return;
      }
      var seen := store;
      for i := 0 to |items|
        invariant !err && Purge(seen, seen, items, valid, j.env) == Purge(store, seen, items[i..], valid, j.env)
      {
        assert items[i..][0] == items[i] && items[i..][1..] == items[i + 1..];
        var slug := Label(seen, items[i], LabelSlug);
        if slug != "" && slug !in valid {
          err := Delete(items[i], j.env.fault(CleanupDelete(items[i])));
          if err {
            return;
          }
        }
      }
    }

    method CleanupOrphanedResources(exam: Exam, j: Job) returns (err: bool)
      modifies this`store
      ensures Reply(store, err) == Cleanup(j, old(store), ValidSlugs(exam.status))
    {
      hide CleanupKind, ValidSlugs;
      var valid := CollectValidSlugs(exam);
      err := CleanupOrphansOf(j, valid, DeploymentKind);
      if err { return; }
      err := CleanupOrphansOf(j, valid, ServiceKind);
      if err { return; }
      err := CleanupOrphansOf(j, valid, PolicyKind);
    }

    method AllHealthy(j: Job) returns (r: bool)
      requires j.env.Valid()
      ensures r == AllInstancesHealthy(j, store)
    {
      hide Selected, IsReady;
      var items, err := List(j, GateList, DeploymentKind, OwnerLabels(j.x));
      if err {
        return false;
      }
      assert Enumerates(items, Owned(j, store, DeploymentKind));
      EnumerationSize(items, Owned(j, store, DeploymentKind));
      for i := 0 to |items|
        invariant forall k :: 0 <= k < i ==> IsReady(store, items[k])
      {
        if !IsReady(store, items[i]) {
          assert items[i] in items;
          return false;
        }
      }
      forall k | k in Owned(j, store, DeploymentKind) ensures IsReady(store, k) {
        assert k in items;
      }
      r := |items| == |j.spec.students| + j.spec.spares;
    }

    method SetCondition(exam: Exam, condition: Condition)
      modifies exam
      ensures exam.status == AddCondition(old(exam.status), condition)
    {
      exam.status := exam.status.(conditions := exam.status.conditions + {condition});
    }

    method EnterReady(exam: Exam, j: Job)
      modifies this`mails, exam, metrics
      ensures View(exam) == Pass.EnterReady(j, old(View(exam)))
    {
      SetCondition(exam, ProvisionedCondition);
      exam.status := exam.status.(phase := Ready, phaseEntry := Some(j.now));
      metrics.DeleteLabelValues(PhaseDuration(j.x, Phase.Provisioning));
      metrics.Touch(PhaseTransition(j.x, Phase.Provisioning, Ready));
      if j.spec.spares > 0 {
        var urls: seq<string> := [];
        for i := 0 to |exam.status.spares|
          invariant |urls| == i && forall k :: 0 <= k < i ==> urls[k] == exam.status.spares[k].url
        {
          urls := urls + [exam.status.spares[i].url];
        }
        assert urls == SpareURLsOf(exam.status.spares);
        var _ := SendEmail(j, SparesLetter, j.spec.email.instructorEmail, SpareURLs(urls));
      }
    }

    method ReconcileProvisioning(exam: Exam, j: Job) returns (requeue: int, err: bool)
      requires j.env.Valid()
      modifies this, exam, metrics
      ensures Out(View(exam), requeue, err) == Pass.ReconcileProvisioning(j, old(View(exam)))
    {
      hide ProvisionStudents, ProvisionSpares, Cleanup, AllInstancesHealthy, Pass.EnterReady, ValidSlugs, NamespaceObject;
      requeue := 0;
      err := Create(NamespaceKey(j.ns), NamespaceObject(j.x), j.env.fault(NamespaceCreate));
      if err {
        return;
      }
      if j.platform.tlsSecret != "" && j.env.fault(SecretCopy) != NoFault {
        err := true;
        return;
      }
      var healthy;
      healthy, err := ProvisionAllStudents(exam, j);
      if err {
        return;
      }
      healthy, err := ProvisionAllSpares(exam, j, healthy);
      if err {
        return;
      }
      if !healthy {
        SetCondition(exam, ProvisioningDegraded);
      }
      var _ := CleanupOrphanedResources(exam, j);
      var open := AllHealthy(j);
      if open {
        EnterReady(exam, j);
        return;
      }
      requeue := 10 * SECOND;
    }

    // Policies and routes.

    method CollectSlugs(exam: Exam) returns (entries: seq<Entry>)
      ensures entries == Entries(exam.status)
    {
      var st := exam.status;
      entries := [];
      for i := 0 to |st.students|
        invariant |entries| == i
        invariant forall k :: 0 <= k < i ==> entries[k] == Entry(st.students[k].id, st.students[k].slug)
      {
        entries := entries + [Entry(st.students[i].id, st.students[i].slug)];
      }
      var n := |st.students|;
      for i := 0 to |st.spares|
        invariant |entries| == n + i
        invariant forall k :: 0 <= k < n ==> entries[k] == Entry(st.students[k].id, st.students[k].slug)
        invariant forall k :: 0 <= k < i ==> entries[n + k] == Entry("", st.spares[k].slug)
      {
        entries := entries + [Entry("", st.spares[i].slug)];
      }
      forall k | 0 <= k < |entries| ensures entries[k] == Entries(st)[k] {
        assert k >= n ==> entries[n + (k - n)] == Entry("", st.spares[k - n].slug);
      }
    }

    method CreateEntryPolicy(j: Job, i: nat, e: Entry, part: PolicyPart)
      modifies this`store
      ensures store == CreatePolicy(j, old(store), i, e, part)
    {
      var _ := Create(PolicyKey(j.ns, part, e.slug), PolicyObject(j.x, j.spec, part, e.student, e.slug),
                      j.env.fault(Make(EntryAt(i), OfPolicy(part))));
    }

    method EnforcePolicies(exam: Exam, j: Job, unlocked: bool)
      modifies this`store
      ensures View(exam) == Pass.EnforcePolicies(j, old(View(exam)), unlocked)
    {
      hide CreatePolicy, IngressObject, Entries;
      var entries := CollectSlugs(exam);
      for i := 0 to |entries|
        invariant EnforceFrom(j, old(store), entries, 0, unlocked) == EnforceFrom(j, store, entries, i, unlocked)
      {
        var e := entries[i];
        CreateEntryPolicy(j, i, e, DenyAllPart);
        CreateEntryPolicy(j, i, e, EgressAllowPart);
        if unlocked {
          var _ := Create(IngressKey(j.ns, e.slug),
                          IngressObject(j.x, j.spec, e.student, e.slug, j.platform.domain, j.platform.tlsSecret),
                          j.env.fault(Make(EntryAt(i), Route)));
          CreateEntryPolicy(j, i, e, IngressAllowPart);
        } else {
          var _ := Delete(PolicyKey(j.ns, IngressAllowPart, e.slug), j.env.fault(Unmake(EntryAt(i))));
        }
      }
    }

    method DeleteAllIngresses(j: Job) returns (err: bool)
      modifies this`store
      ensures Reply(store, err) == DeleteIngresses(j, old(store))
    {
      var items;
      items, err := List(j, IngressList, IngressKind, OwnerLabels(j.x));
      if err {
        return;
      }
      ghost var s0 := store;
      for i := 0 to |items|
        invariant !err && DeleteEach(s0, items, j.env) == DeleteEach(store, items[i..], j.env)
      {
        assert items[i..][0] == items[i] && items[i..][1..] == items[i + 1..];
        err := Delete(items[i], j.env.fault(IngressDelete(items[i])));
        if err {
          return;
        }
      }
    }

    // Ready.

    /** The loop reads the spec at the position of the status entry, so the lists must line up. */
    method SendNextPendingEmail(exam: Exam, j: Job) returns (sent: bool)
      requires |exam.status.students| <= |j.spec.students|
      modifies this`mails, exam, metrics
      ensures sent == NextPending(old(exam.status.students), 0).Some?
      ensures View(exam) == if sent then SendStudentMail(j, old(View(exam)), NextPending(old(exam.status.students), 0).value)
                            else old(View(exam))
    {
      var students := exam.status.students;
      for i := 0 to |students|
        invariant View(exam) == old(View(exam))
        invariant NextPending(students, 0) == NextPending(students, i)
      {
        if students[i].email == EmailPending {
          var student := j.spec.students[i];
          var err := SendEmail(j, StudentLetter(i), student.email, StudentURL(i, students[i].url));
          if err {
            exam.status := exam.status.(students := students[i := students[i].(email := EmailFailed)]);
            metrics.Touch(OfExam(EmailsFailedTotal, j.x));
          } else {
            exam.status := exam.status.(students := students[i := students[i].(email := EmailSent, sentAt := Some(j.now))]);
            metrics.Touch(OfExam(EmailsSentTotal, j.x));
          }
          return true;
        }
      }
      sent := false;
    }

    method RunDryRun(exam: Exam, j: Job)
      modifies exam, metrics
      ensures View(exam) == Pass.RunDryRun(j, old(View(exam)))
    {
      var check := j.env.check;
      var conditions := exam.status.conditions;
      if check.policyEnforced {
        conditions := conditions + {NetworkPolicyEnforced};
      } else {
        conditions := conditions - {NetworkPolicyEnforced};
      }
      if check.failed > 0 {
        conditions := conditions + {DryRunFailed};
      }
      exam.status := exam.status.(dryRun := Some(DryRun(j.now, check.passed, check.failed)),
                                  conditions := conditions + {DryRunComplete});
      metrics.Touch(OfExam(DryRunPassed, j.x));
      metrics.Touch(OfExam(DryRunFailures, j.x));
      assert metrics.series == old(metrics.series) + {OfExam(DryRunPassed, j.x), OfExam(DryRunFailures, j.x)};
    }

    method ReconcileReady(exam: Exam, j: Job) returns (requeue: int, err: bool)
      requires |exam.status.students| <= |j.spec.students|
      modifies this, exam, metrics
      ensures Out(View(exam), requeue, err) == Pass.ReconcileReady(j, old(View(exam)))
    {
      hide EnforceFrom, Entries, SendStudentMail, Pass.RunDryRun, NextPending, ComputeSchedule;
      err := false;
      var emailTime := ComputeSchedule(j.spec).email;
      var unlock := j.spec.schedule.unlock;
      if AllEmailsSent !in exam.status.conditions && emailTime <= j.now {
        var sent := SendNextPendingEmail(exam, j);
        if sent {
          requeue := SendInterval(j.spec.email);
          return;
        }
        SetCondition(exam, AllEmailsSent);
      }
      if j.spec.schedule.dryRun.Some? && DryRunComplete !in exam.status.conditions {
        if unlock - j.spec.schedule.dryRun.value <= j.now {
          RunDryRun(exam, j);
        }
      }
      EnforcePolicies(exam, j, false);
      var nextWake := unlock;
      if AllEmailsSent !in exam.status.conditions && emailTime < nextWake {
        nextWake := emailTime;
      }
      if j.spec.schedule.dryRun.Some? && DryRunComplete !in exam.status.conditions {
        var dryRunTime := unlock - j.spec.schedule.dryRun.value;
        if dryRunTime < nextWake {
          nextWake := dryRunTime;
        }
      }
      requeue := Max(nextWake - j.now, 0);
    }

    // Unlocked and Locked.

    method MarkAll(exam: Exam, phase: InstancePhase)
      requires phase != Failed
      modifies exam
      ensures exam.status == old(exam.status).(students := MarkStudents(old(exam.status.students), phase),
                                               spares := MarkSpares(old(exam.status.spares), phase))
    {
      var st := exam.status;
      for i := 0 to |st.students|
        invariant exam.status == st.(students := exam.status.students) && |exam.status.students| == |st.students|
        invariant forall k :: 0 <= k < i ==> exam.status.students[k] == MarkStudents(st.students, phase)[k]
        invariant forall k :: i <= k < |st.students| ==> exam.status.students[k] == st.students[k]
      {
        if exam.status.students[i].phase != Failed {
          exam.status := exam.status.(students := exam.status.students[i := exam.status.students[i].(phase := phase)]);
        }
      }
      assert exam.status.students == MarkStudents(st.students, phase);
      var marked := exam.status;
      for i := 0 to |st.spares|
        invariant exam.status == marked.(spares := exam.status.spares) && |exam.status.spares| == |st.spares|
        invariant forall k :: 0 <= k < i ==> exam.status.spares[k] == MarkSpares(st.spares, phase)[k]
        invariant forall k :: i <= k < |st.spares| ==> exam.status.spares[k] == st.spares[k]
      {
        if exam.status.spares[i].phase != Failed {
          exam.status := exam.status.(spares := exam.status.spares[i := exam.status.spares[i].(phase := phase)]);
        }
      }
      assert exam.status.spares == MarkSpares(st.spares, phase);
    }

    method CollectFailedMails(students: seq<StudentStatus>) returns (failed: seq<string>)
      ensures failed == FailedMails(students)
    {
      failed := [];
      for i := 0 to |students|
        invariant failed == FailedMails(students[..i])
      {
        assert students[..i + 1][..i] == students[..i];
        if students[i].email == EmailFailed {
          failed := failed + [students[i].id];
        }
      }
      assert students[..|students|] == students;
    }

    method NotifyOnce(exam: Exam, j: Job, letter: Letter, content: Content, done: Condition)
      modifies this`mails, exam
      ensures View(exam) == Notify(j, old(View(exam)), letter, content, done)
    {
      if done !in exam.status.conditions {
        var err := SendEmail(j, letter, j.spec.email.instructorEmail, content);
        if !err {
          SetCondition(exam, done);
        }
      }
    }

    method ReconcileUnlock(exam: Exam, j: Job) returns (requeue: int, err: bool)
      requires exam.status.times.Some?
      modifies this, exam, metrics
      ensures Out(View(exam), requeue, err) == Pass.ReconcileUnlock(j, old(View(exam)))
    {
      hide EnforceFrom, Entries, MarkStudents, MarkSpares, FailedMails;
      EnforcePolicies(exam, j, true);
      MarkAll(exam, InstanceUnlocked);
      var failed := CollectFailedMails(exam.status.students);
      NotifyOnce(exam, j, UnlockLetter, UnlockNotice(|j.spec.students|, j.spec.spares, failed), InstructorNotifiedUnlock);
      exam.status := exam.status.(message := InProgress(|j.spec.students|, j.spec.spares));
      requeue, err := Max(exam.status.times.value.lock - j.now, 0), false;
    }

    method CountFailed(students: seq<StudentStatus>) returns (healthy: nat, lost: nat)
      ensures lost == CountStudents(students, Failed) && healthy + lost == |students|
    {
      healthy, lost := 0, 0;
      for i := 0 to |students|
        invariant lost == CountStudents(students[..i], Failed) && healthy + lost == i
      {
        assert students[..i + 1][..i] == students[..i];
        if students[i].phase == Failed {
          lost := lost + 1;
        } else {
          healthy := healthy + 1;
        }
      }
      assert students[..|students|] == students;
    }

    method ReconcileLocked(exam: Exam, j: Job) returns (requeue: int, err: bool)
      requires exam.status.times.Some?
      modifies this, exam, metrics
      ensures Out(View(exam), requeue, err) == Pass.ReconcileLocked(j, old(View(exam)))
    {
      hide EnforceFrom, Entries, MarkStudents, MarkSpares, DeleteIngresses, CountStudents;
      EnforcePolicies(exam, j, false);
      requeue := 0;
      err := DeleteAllIngresses(j);
      if err {
        return;
      }
      MarkAll(exam, InstanceLocked);
      var healthy, lost := CountFailed(exam.status.students);
      NotifyOnce(exam, j, LockLetter, LockNotice(|j.spec.students|, healthy, lost), InstructorNotifiedLock);
      exam.status := exam.status.(message := Ended);
      requeue := Max(exam.status.times.value.deadline - j.now, 0);
    }

    method ReconcileTeardown(exam: Exam, j: Job) returns (err: bool)
      modifies this`store, exam, metrics
      ensures Out(View(exam), 0, err) == Pass.ReconcileTeardown(j, old(View(exam)))
    {
      err := DeleteNamespace(j.ns, j.env.fault(NamespaceDelete));
      if err {
        return;
      }
      metrics.CleanupExam(j.x);
      exam.status := exam.status.(phase := TearingDown, phaseEntry := Some(j.now), message := NamespaceDeleted);
    }

    // The summary and the pass.

    method UpdateMetricsSummary(exam: Exam, j: Job)
      modifies exam, metrics
      ensures exam.status == old(exam.status).(summary := Some(Summarize(j.spec, old(exam.status))))
      ensures metrics.series == old(metrics.series)
                + {OfExam(InstancesTotal, j.x), OfExam(InstancesHealthy, j.x), OfExam(InstancesFailed, j.x)}
    {
      var st := exam.status;
      var healthy: nat, failed: nat, sent: nat, unsent: nat := 0, 0, 0, 0;
      for i := 0 to |st.students|
        invariant failed == CountStudents(st.students[..i], Failed) && healthy + failed == i
        invariant sent == CountEmails(st.students[..i], EmailSent) && unsent == CountEmails(st.students[..i], EmailFailed)
      {
        assert st.students[..i + 1][..i] == st.students[..i];
        if st.students[i].phase == Failed {
          failed := failed + 1;
        } else {
          healthy := healthy + 1;
        }
        if st.students[i].email == EmailSent {
          sent := sent + 1;
        } else if st.students[i].email == EmailFailed {
          unsent := unsent + 1;
        }
      }
      assert st.students[..|st.students|] == st.students;
      var failedStudents := failed;
      for i := 0 to |st.spares|
        invariant failed == failedStudents + CountSpares(st.spares[..i], Failed)
        invariant healthy + failed == |st.students| + i
      {
        assert st.spares[..i + 1][..i] == st.spares[..i];
        if st.spares[i].phase == Failed {
          failed := failed + 1;
        } else {
          healthy := healthy + 1;
        }
      }
      assert st.spares[..|st.spares|] == st.spares;
      exam.status := exam.status.(summary := Some(Summary(|j.spec.students|, j.spec.spares, sent, unsent, healthy, failed)));
      metrics.Touch(OfExam(InstancesTotal, j.x));
      metrics.Touch(OfExam(InstancesHealthy, j.x));
      metrics.Touch(OfExam(InstancesFailed, j.x));
    }

    method BeginPass(exam: Exam, j: Job)
      modifies exam, metrics
      ensures View(exam) == Begin(j, old(View(exam)))
    {
      hide ComputeSchedule;
      exam.status := exam.status.(times := Some(ComputeSchedule(j.spec)));
      var oldPhase := exam.status.phase;
      var desired := DesiredPhase(oldPhase, exam.status.times, j.spec, j.now);
      if oldPhase != desired {
        if oldPhase != Unset {
          metrics.DeleteLabelValues(PhaseDuration(j.x, oldPhase));
        }
        exam.status := exam.status.(phase := desired, phaseEntry := Some(j.now));
        metrics.Touch(PhaseTransition(j.x, oldPhase, desired));
      }
    }

    method FinishPass(exam: Exam, j: Job)
      modifies exam, metrics
      ensures View(exam) == Finish(j, old(View(exam)))
    {
      hide Summarize;
      if exam.status.phase != TearingDown {
        metrics.Touch(OfExam(SecondsUntilUnlock, j.x));
        metrics.Touch(OfExam(SecondsUntilLock, j.x));
        if exam.status.phaseEntry.Some? {
          metrics.Touch(PhaseDuration(j.x, exam.status.phase));
        }
        UpdateMetricsSummary(exam, j);
      }
    }

    /** One pass over an exam that exists and is not being deleted: in memory, up to the status write. */
    method Reconcile(exam: Exam, j: Job) returns (requeue: int, err: bool)
      requires j.env.Valid() && j.x == exam.x && j.spec == exam.spec && j.platform == platform
      requires |exam.status.students| <= |j.spec.students|
      modifies this, exam, metrics
      ensures Out(View(exam), requeue, err) == Pass.Reconcile(j, old(View(exam)))
    {
      hide Pass.ReconcileProvisioning, Pass.ReconcileReady, Pass.ReconcileUnlock, Pass.ReconcileLocked,
           Pass.ReconcileTeardown, Finish, ComputeSchedule, DesiredPhase;
      BeginPass(exam, j);
      requeue, err := 0, false;
      match exam.status.phase {
        case Unset =>
        case Pending => requeue := Max(exam.status.times.value.provision - j.now, 0);
        case Provisioning => requeue, err := ReconcileProvisioning(exam, j);
        case Ready => requeue, err := ReconcileReady(exam, j);
        case Unlocked => requeue, err := ReconcileUnlock(exam, j);
        case Locked => requeue, err := ReconcileLocked(exam, j);
        case TearingDown => err := ReconcileTeardown(exam, j);
      }
      FinishPass(exam, j);
    }
  }
}
