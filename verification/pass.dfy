/** One reconcile pass as a function of what it reads and of the oracle. */
module Pass {
  import opened Prelude
  import opened ExamApi
  import opened Timetable
  import opened Policy
  import opened Objects
  import opened Store
  import opened Metrics
  import opened Oracle

  datatype Platform = Platform(domain: string, tlsSecret: string)

  /** What a pass is given: the exam and its namespace, the spec it read, the clock and the oracle. */
  datatype Job = Job(x: Ref, ns: string, platform: Platform, spec: Spec, now: int, env: Env)

  datatype Content =
    | SpareURLs(urls: seq<string>)
    | StudentURL(index: nat, url: string)
    | UnlockNotice(students: int, spares: int, failed: seq<string>)
    | LockNotice(total: int, healthy: nat, lost: nat)

  /** One call of the mail sender. */
  datatype Mail = Mail(to: string, content: Content, delivered: bool)

  /** What a pass changes. */
  datatype Ctx = Ctx(status: Status, store: Cluster, mails: seq<Mail>, series: set<Series>)

  datatype Out = Out(c: Ctx, requeue: int, err: bool)

  function InstanceURL(domain: string, slug: string): string {
    "https://" + slug + "." + domain
  }

  function Label(s: Cluster, k: Key, l: LabelKey): string {
    if k in s then LabelValue(s[k].labels, l) else ""
  }

  predicate HasLabel(s: Cluster, k: Key, l: LabelKey) {
    k in s && l in s[k].labels
  }

  function ListFails(env: Env, site: Site): bool {
    env.fault(site) != NoFault
  }

  // Finding or generating slugs.

  function FirstSlug(students: seq<StudentStatus>, id: string): (r: Option<string>)
    ensures r.Some? ==> r.value != ""
    ensures r.Some? ==> exists k :: 0 <= k < |students| && students[k].id == id && students[k].slug == r.value
    ensures r.None? ==> forall k :: 0 <= k < |students| && students[k].id == id ==> students[k].slug == ""
  {
    if students == [] then None
    else if students[0].id == id && students[0].slug != "" then Some(students[0].slug)
    else FirstSlug(students[1..], id)
  }

  function StudentDeployments(j: Job, s: Cluster, id: string): set<Key> {
    Selected(s, DeploymentKind, j.ns, StudentSelector(j.x, id))
  }

  function Owned(j: Job, s: Cluster, kind: Kind): set<Key> {
    Selected(s, kind, j.ns, OwnerLabels(j.x))
  }

  /** The slug of the first deployment listed for the student, or "". */
  function LeftoverStudentSlug(j: Job, s: Cluster, i: nat): string
    requires i < |j.spec.students|
  {
    var site := Lookup(StudentAt(i));
    var items := j.env.order(site, StudentDeployments(j, s, j.spec.students[i].id));
    if ListFails(j.env, site) || items == [] then "" else Label(s, items[0], LabelSlug)
  }

  function FindStudentSlug(j: Job, c: Ctx, i: nat): Option<string>
    requires i < |j.spec.students|
  {
    var known := FirstSlug(c.status.students, j.spec.students[i].id);
    if known.Some? then known
    else
      var leftover := LeftoverStudentSlug(j, c.store, i);
      if leftover != "" then Some(leftover) else j.env.slug(StudentAt(i))
  }

  predicate IsSpare(s: Cluster, k: Key) {
    !HasLabel(s, k, LabelStudent) && Label(s, k, LabelSlug) != ""
  }

  function SpareSlugs(s: Cluster, items: seq<Key>): seq<string> {
    if items == [] then []
    else (if IsSpare(s, items[0]) then [Label(s, items[0], LabelSlug)] else []) + SpareSlugs(s, items[1..])
  }

  function LeftoverSpareSlugs(j: Job, s: Cluster, i: nat): seq<string> {
    var site := Lookup(SpareAt(i));
    if ListFails(j.env, site) then []
    else SortStrings(SpareSlugs(s, j.env.order(site, Owned(j, s, DeploymentKind))))
  }

  function FindSpareSlug(j: Job, c: Ctx, i: nat): Option<string> {
    if i < |c.status.spares| && c.status.spares[i].slug != "" then Some(c.status.spares[i].slug)
    else
      var leftovers := LeftoverSpareSlugs(j, c.store, i);
      if i < |leftovers| then Some(leftovers[i]) else j.env.slug(SpareAt(i))
  }

  // Provisioning one instance.

  datatype Creation = Creation(site: Site, key: Key, value: Object)

  /** Creates the objects in turn, stopping at the first error. */
  function CreateAll(s: Cluster, todo: seq<Creation>, env: Env): Reply
    decreases |todo|
  {
    if todo == [] then Reply(s, false)
    else
      var first := Create(s, todo[0].key, todo[0].value, env.fault(todo[0].site));
      if first.err then first else CreateAll(first.store, todo[1..], env)
  }

  function InstanceObjects(j: Job, who: Who, student: string, slug: string): seq<Creation> {
    [ Creation(Make(who, Workload), DeploymentKey(j.ns, slug), Deployment(j.x, j.spec, student, slug)),
      Creation(Make(who, Endpoint), ServiceKey(j.ns, slug), Service(j.x, j.spec, student, slug)),
      Creation(Make(who, OfPolicy(DenyAllPart)), PolicyKey(j.ns, DenyAllPart, slug),
               PolicyObject(j.x, j.spec, DenyAllPart, student, slug)),
      Creation(Make(who, OfPolicy(EgressAllowPart)), PolicyKey(j.ns, EgressAllowPart, slug),
               PolicyObject(j.x, j.spec, EgressAllowPart, student, slug)) ]
  }

  function ProvisionInstance(j: Job, s: Cluster, who: Who, student: string, slug: string): Reply {
    CreateAll(s, InstanceObjects(j, who, student, slug), j.env)
  }

  /** Grows the list with blanks as far as needed, then sets one entry. */
  function Put<T>(q: seq<T>, i: nat, v: T, blank: T): (r: seq<T>)
    ensures |r| == if i < |q| then |q| else i + 1
    ensures r[i] == v
    ensures forall k :: 0 <= k < |q| && k != i ==> r[k] == q[k]
    ensures forall k :: |q| <= k < i ==> r[k] == blank
  {
    if i < |q| then q[i := v] else q + seq(i - |q|, _ => blank) + [v]
  }

  function StudentEntry(j: Job, i: nat, slug: string, phase: InstancePhase): StudentStatus
    requires i < |j.spec.students|
  {
    StudentStatus(j.spec.students[i].id, slug, InstanceURL(j.platform.domain, slug), phase, EmailPending, None)
  }

  function SpareEntry(j: Job, slug: string, phase: InstancePhase): SpareStatus {
    SpareStatus(slug, InstanceURL(j.platform.domain, slug), phase)
  }

  function SetStudent(j: Job, st: Status, i: nat, slug: string, phase: InstancePhase): Status
    requires i < |j.spec.students|
  {
    st.(students := Put(st.students, i, StudentEntry(j, i, slug, phase), BlankStudent))
  }

  function SetSpare(j: Job, st: Status, i: nat, slug: string, phase: InstancePhase): Status {
    st.(spares := Put(st.spares, i, SpareEntry(j, slug, phase), BlankSpare))
  }

  function ProvisionStudent(j: Job, c: Ctx, i: nat, slug: string): Ctx
    requires i < |j.spec.students|
  {
    var id := j.spec.students[i].id;
    var r := ProvisionInstance(j, c.store, StudentAt(i), id, slug);
    var was := i < |c.status.students| && c.status.students[i].phase == Provisioned;
    if r.err then c.(store := r.store, status := SetStudent(j, c.status, i, slug, Failed))
    else c.(store := r.store, status := SetStudent(j, c.status, i, slug, Provisioned),
            series := if was then c.series else c.series + {ProvisionDuration(j.x, id)})
  }

  function ProvisionSpare(j: Job, c: Ctx, i: nat, slug: string): Ctx {
    var r := ProvisionInstance(j, c.store, SpareAt(i), "", slug);
    var was := i < |c.status.spares| && c.status.spares[i].phase == Provisioned;
    if r.err then c.(store := r.store)
    else c.(store := r.store, status := SetSpare(j, c.status, i, slug, Provisioned),
            series := if was then c.series else c.series + {ProvisionDuration(j.x, slug)})
  }

  /** Where a provisioning loop ends: `err` when it gave up for want of a slug. */
  datatype Progress = Progress(c: Ctx, healthy: bool, err: bool)

  function ProvisionStudents(j: Job, c: Ctx, i: nat, healthy: bool): Progress
    requires i <= |j.spec.students|
    decreases |j.spec.students| - i
  {
    if i == |j.spec.students| then Progress(c, healthy, false)
    else
      var slug := FindStudentSlug(j, c, i);
      if slug.None? then Progress(c, healthy, true)
      else
        var ok := !ProvisionInstance(j, c.store, StudentAt(i), j.spec.students[i].id, slug.value).err;
        ProvisionStudents(j, ProvisionStudent(j, c, i, slug.value), i + 1, healthy && ok)
  }

  function ProvisionSpares(j: Job, c: Ctx, i: nat, healthy: bool): Progress
    decreases j.spec.spares - i
  {
    if i >= j.spec.spares then Progress(c, healthy, false)
    else
      var slug := FindSpareSlug(j, c, i);
      if slug.None? then Progress(c, healthy, true)
      else
        var ok := !ProvisionInstance(j, c.store, SpareAt(i), "", slug.value).err;
        ProvisionSpares(j, ProvisionSpare(j, c, i, slug.value), i + 1, healthy && ok)
  }

  // Clean-up and the gate.

  function ValidSlugs(st: Status): set<string> {
    (set i | 0 <= i < |st.students| && st.students[i].slug != "" :: st.students[i].slug)
    + (set i | 0 <= i < |st.spares| && st.spares[i].slug != "" :: st.spares[i].slug)
  }

  predicate Orphan(seen: Cluster, k: Key, valid: set<string>) {
    Label(seen, k, LabelSlug) != "" && Label(seen, k, LabelSlug) !in valid
  }

  /** Deletes the listed orphans in turn, stopping at the first error; labels are as listed. */
  function Purge(s: Cluster, seen: Cluster, items: seq<Key>, valid: set<string>, env: Env): Reply {
    if items == [] then Reply(s, false)
    else if Orphan(seen, items[0], valid) then
      var first := Delete(s, items[0], env.fault(CleanupDelete(items[0])));
      if first.err then first else Purge(first.store, seen, items[1..], valid, env)
    else Purge(s, seen, items[1..], valid, env)
  }

  function CleanupKind(j: Job, s: Cluster, valid: set<string>, kind: Kind): Reply {
    if ListFails(j.env, CleanupList(kind)) then Reply(s, true)
    else Purge(s, s, j.env.order(CleanupList(kind), Owned(j, s, kind)), valid, j.env)
  }

  function Cleanup(j: Job, s: Cluster, valid: set<string>): Reply {
    var deployments := CleanupKind(j, s, valid, DeploymentKind);
    if deployments.err then deployments
    else
      var services := CleanupKind(j, deployments.store, valid, ServiceKind);
      if services.err then services
      else CleanupKind(j, services.store, valid, PolicyKind)
  }

  predicate IsReady(s: Cluster, k: Key) {
    k in s && s[k].body.DeploymentBody? && s[k].body.ready >= 1
  }

  predicate AllInstancesHealthy(j: Job, s: Cluster) {
    && !ListFails(j.env, GateList)
    && (forall k :: k in Owned(j, s, DeploymentKind) ==> IsReady(s, k))
    && |Owned(j, s, DeploymentKind)| == |j.spec.students| + j.spec.spares
  }

  function AddCondition(st: Status, condition: Condition): Status {
    st.(conditions := st.conditions + {condition})
  }

  function Send(j: Job, c: Ctx, letter: Letter, to: string, content: Content): Ctx {
    c.(mails := c.mails + [Mail(to, content, !j.env.undelivered(letter))])
  }

  function SpareURLsOf(spares: seq<SpareStatus>): seq<string> {
    seq(|spares|, i requires 0 <= i < |spares| => spares[i].url)
  }

  function EnterReady(j: Job, c: Ctx): Ctx {
    var st := AddCondition(c.status, ProvisionedCondition).(phase := Ready, phaseEntry := Some(j.now));
    var entered := c.(status := st,
                      series := c.series - {PhaseDuration(j.x, Phase.Provisioning)}
                                + {PhaseTransition(j.x, Phase.Provisioning, Ready)});
    if j.spec.spares > 0 then
      Send(j, entered, SparesLetter, j.spec.email.instructorEmail, SpareURLs(SpareURLsOf(st.spares)))
    else entered
  }

  function Settle(j: Job, c: Ctx, healthy: bool): Out {
    var marked := if healthy then c else c.(status := AddCondition(c.status, ProvisioningDegraded));
    var cleaned := marked.(store := Cleanup(j, marked.store, ValidSlugs(marked.status)).store);
    if AllInstancesHealthy(j, cleaned.store) then Out(EnterReady(j, cleaned), 0, false)
    else Out(cleaned, 10 * SECOND, false)
  }

  predicate SecretFails(j: Job) {
    j.platform.tlsSecret != "" && j.env.fault(SecretCopy) != NoFault
  }

  function ReconcileProvisioning(j: Job, c: Ctx): Out {
    var made := Create(c.store, NamespaceKey(j.ns), NamespaceObject(j.x), j.env.fault(NamespaceCreate));
    var c0 := c.(store := made.store);
    if made.err || SecretFails(j) then Out(c0, 0, true)
    else
      var students := ProvisionStudents(j, c0, 0, true);
      if students.err then Out(students.c, 0, true)
      else
        var spares := ProvisionSpares(j, students.c, 0, students.healthy);
        if spares.err then Out(spares.c, 0, true)
        else Settle(j, spares.c, spares.healthy)
  }

  // Policies and routes of the recorded instances.

  datatype Entry = Entry(student: string, slug: string)

  function Entries(st: Status): seq<Entry> {
    seq(|st.students|, i requires 0 <= i < |st.students| => Entry(st.students[i].id, st.students[i].slug))
    + seq(|st.spares|, i requires 0 <= i < |st.spares| => Entry("", st.spares[i].slug))
  }

  function CreatePolicy(j: Job, s: Cluster, i: nat, e: Entry, part: PolicyPart): Cluster {
    Create(s, PolicyKey(j.ns, part, e.slug), PolicyObject(j.x, j.spec, part, e.student, e.slug),
           j.env.fault(Make(EntryAt(i), OfPolicy(part)))).store
  }

  function EnforceEntry(j: Job, s: Cluster, i: nat, e: Entry, unlocked: bool): Cluster {
    var closed := CreatePolicy(j, CreatePolicy(j, s, i, e, DenyAllPart), i, e, EgressAllowPart);
    if unlocked then
      var routed := Create(closed, IngressKey(j.ns, e.slug),
                           IngressObject(j.x, j.spec, e.student, e.slug, j.platform.domain, j.platform.tlsSecret),
                           j.env.fault(Make(EntryAt(i), Route))).store;
      CreatePolicy(j, routed, i, e, IngressAllowPart)
    else Delete(closed, PolicyKey(j.ns, IngressAllowPart, e.slug), j.env.fault(Unmake(EntryAt(i)))).store
  }

  /** Every entry in turn; errors are only logged. */
  function EnforceFrom(j: Job, s: Cluster, entries: seq<Entry>, i: nat, unlocked: bool): Cluster
    requires i <= |entries|
    decreases |entries| - i
  {
    if i == |entries| then s
    else EnforceFrom(j, EnforceEntry(j, s, i, entries[i], unlocked), entries, i + 1, unlocked)
  }

  function EnforcePolicies(j: Job, c: Ctx, unlocked: bool): Ctx {
    c.(store := EnforceFrom(j, c.store, Entries(c.status), 0, unlocked))
  }

  // Ready.

  /** The first student from `i` on whose mail is pending. */
  function NextPending(students: seq<StudentStatus>, i: nat): (r: Option<nat>)
    requires i <= |students|
    ensures r.Some? ==> i <= r.value < |students| && students[r.value].email == EmailPending
    ensures r.Some? ==> forall k :: i <= k < r.value ==> students[k].email != EmailPending
    ensures r.None? ==> forall k :: i <= k < |students| ==> students[k].email != EmailPending
    decreases |students| - i
  {
    if i == |students| then None
    else if students[i].email == EmailPending then Some(i)
    else NextPending(students, i + 1)
  }

  function StudentAddress(spec: Spec, i: nat): string {
    if i < |spec.students| then spec.students[i].email else ""
  }

  function SendStudentMail(j: Job, c: Ctx, i: nat): Ctx
    requires i < |c.status.students|
  {
    var s := c.status.students[i];
    var sent := Send(j, c, StudentLetter(i), StudentAddress(j.spec, i), StudentURL(i, s.url));
    if j.env.undelivered(StudentLetter(i)) then
      sent.(status := c.status.(students := c.status.students[i := s.(email := EmailFailed)]),
            series := c.series + {OfExam(EmailsFailedTotal, j.x)})
    else
      sent.(status := c.status.(students := c.status.students[i := s.(email := EmailSent, sentAt := Some(j.now))]),
            series := c.series + {OfExam(EmailsSentTotal, j.x)})
  }

  predicate MailDue(spec: Spec, st: Status, now: int) {
    AllEmailsSent !in st.conditions && ComputeSchedule(spec).email <= now
  }

  predicate DryRunDue(spec: Spec, st: Status, now: int) {
    spec.schedule.dryRun.Some? && DryRunComplete !in st.conditions
    && spec.schedule.unlock - spec.schedule.dryRun.value <= now
  }

  function RunDryRun(j: Job, c: Ctx): Ctx {
    var check := j.env.check;
    var enforced := if check.policyEnforced then c.status.conditions + {NetworkPolicyEnforced}
                    else c.status.conditions - {NetworkPolicyEnforced};
    var judged := if check.failed > 0 then enforced + {DryRunFailed} else enforced;
    c.(status := c.status.(dryRun := Some(DryRun(j.now, check.passed, check.failed)),
                           conditions := judged + {DryRunComplete}),
       series := c.series + {OfExam(DryRunPassed, j.x), OfExam(DryRunFailures, j.x)})
  }

  function NextWake(spec: Spec, st: Status): int {
    var unlock := spec.schedule.unlock;
    var email := ComputeSchedule(spec).email;
    var afterMail := if AllEmailsSent !in st.conditions && email < unlock then email else unlock;
    if spec.schedule.dryRun.Some? && DryRunComplete !in st.conditions then
      var dryRun := unlock - spec.schedule.dryRun.value;
      if dryRun < afterMail then dryRun else afterMail
    else afterMail
  }

  /** The part of the Ready handler that runs once no mail is left to send. */
  function WaitForUnlock(j: Job, c: Ctx): Out {
    var checked := if DryRunDue(j.spec, c.status, j.now) then RunDryRun(j, c) else c;
    Out(EnforcePolicies(j, checked, false), Max(NextWake(j.spec, checked.status) - j.now, 0), false)
  }

  function ReconcileReady(j: Job, c: Ctx): Out {
    if MailDue(j.spec, c.status, j.now) then
      var next := NextPending(c.status.students, 0);
      if next.Some? then Out(SendStudentMail(j, c, next.value), SendInterval(j.spec.email), false)
      else WaitForUnlock(j, c.(status := AddCondition(c.status, AllEmailsSent)))
    else WaitForUnlock(j, c)
  }

  // Unlocked.

  function MarkStudents(students: seq<StudentStatus>, phase: InstancePhase): seq<StudentStatus> {
    seq(|students|, i requires 0 <= i < |students| =>
      if students[i].phase == Failed then students[i] else students[i].(phase := phase))
  }

  function MarkSpares(spares: seq<SpareStatus>, phase: InstancePhase): seq<SpareStatus> {
    seq(|spares|, i requires 0 <= i < |spares| =>
      if spares[i].phase == Failed then spares[i] else spares[i].(phase := phase))
  }

  function MarkInstances(c: Ctx, phase: InstancePhase): Ctx {
    c.(status := c.status.(students := MarkStudents(c.status.students, phase),
                           spares := MarkSpares(c.status.spares, phase)))
  }

  function FailedMails(students: seq<StudentStatus>): seq<string> {
    if students == [] then []
    else FailedMails(students[..|students| - 1])
         + if students[|students| - 1].email == EmailFailed then [students[|students| - 1].id] else []
  }

  /** Sends a notice to the instructor unless its condition says it was sent. */
  function Notify(j: Job, c: Ctx, letter: Letter, content: Content, done: Condition): Ctx {
    if done in c.status.conditions then c
    else
      var sent := Send(j, c, letter, j.spec.email.instructorEmail, content);
      if j.env.undelivered(letter) then sent else sent.(status := AddCondition(c.status, done))
  }

  function TimesOf(st: Status): Times {
    if st.times.Some? then st.times.value else Times(0, 0, 0, 0)
  }

  function ReconcileUnlock(j: Job, c: Ctx): Out {
    var admitted := MarkInstances(EnforcePolicies(j, c, true), InstanceUnlocked);
    var content := UnlockNotice(|j.spec.students|, j.spec.spares, FailedMails(admitted.status.students));
    var told := Notify(j, admitted, UnlockLetter, content, InstructorNotifiedUnlock);
    Out(told.(status := told.status.(message := InProgress(|j.spec.students|, j.spec.spares))),
        Max(TimesOf(told.status).lock - j.now, 0), false)
  }

  // Locked.

  function DeleteEach(s: Cluster, items: seq<Key>, env: Env): Reply {
    if items == [] then Reply(s, false)
    else
      var first := Delete(s, items[0], env.fault(IngressDelete(items[0])));
      if first.err then first else DeleteEach(first.store, items[1..], env)
  }

  function DeleteIngresses(j: Job, s: Cluster): Reply {
    if ListFails(j.env, IngressList) then Reply(s, true)
    else DeleteEach(s, j.env.order(IngressList, Owned(j, s, IngressKind)), j.env)
  }

  function CountStudents(students: seq<StudentStatus>, phase: InstancePhase): nat {
    if students == [] then 0
    else CountStudents(students[..|students| - 1], phase)
         + if students[|students| - 1].phase == phase then 1 else 0
  }

  function ReconcileLocked(j: Job, c: Ctx): Out {
    var closed := EnforcePolicies(j, c, false);
    var removed := DeleteIngresses(j, closed.store);
    if removed.err then Out(closed.(store := removed.store), 0, true)
    else
      var marked := MarkInstances(closed.(store := removed.store), InstanceLocked);
      var lost := CountStudents(marked.status.students, Failed);
      var healthy := Max(|marked.status.students| - lost, 0);
      var told := Notify(j, marked, LockLetter, LockNotice(|j.spec.students|, healthy, lost), InstructorNotifiedLock);
      Out(told.(status := told.status.(message := Ended)), Max(TimesOf(told.status).deadline - j.now, 0), false)
  }

  // TearingDown.

  function ReconcileTeardown(j: Job, c: Ctx): Out {
    var removed := DeleteNamespace(c.store, j.ns, j.env.fault(NamespaceDelete));
    if removed.err then Out(c.(store := removed.store), 0, true)
    else
      Out(c.(store := removed.store, series := Without(c.series, j.x),
             status := c.status.(phase := TearingDown, phaseEntry := Some(j.now), message := NamespaceDeleted)),
          0, false)
  }

  // The pass.

  /** Records the schedule and moves to the desired phase. */
  function Begin(j: Job, c: Ctx): Ctx {
    var timed := c.(status := c.status.(times := Some(ComputeSchedule(j.spec))));
    var current := c.status.phase;
    var desired := DesiredPhase(current, timed.status.times, j.spec, j.now);
    if current == desired then timed
    else
      timed.(status := timed.status.(phase := desired, phaseEntry := Some(j.now)),
             series := (if current != Unset then c.series - {PhaseDuration(j.x, current)} else c.series)
                       + {PhaseTransition(j.x, current, desired)})
  }

  function Dispatch(j: Job, c: Ctx): Out {
    match c.status.phase
    case Unset => Out(c, 0, false)
    case Pending => Out(c, Max(TimesOf(c.status).provision - j.now, 0), false)
    case Provisioning => ReconcileProvisioning(j, c)
    case Ready => ReconcileReady(j, c)
    case Unlocked => ReconcileUnlock(j, c)
    case Locked => ReconcileLocked(j, c)
    case TearingDown => ReconcileTeardown(j, c)
  }

  function CountEmails(students: seq<StudentStatus>, email: EmailStatus): nat {
    if students == [] then 0
    else CountEmails(students[..|students| - 1], email)
         + if students[|students| - 1].email == email then 1 else 0
  }

  function CountSpares(spares: seq<SpareStatus>, phase: InstancePhase): nat {
    if spares == [] then 0
    else CountSpares(spares[..|spares| - 1], phase)
         + if spares[|spares| - 1].phase == phase then 1 else 0
  }

  function Summarize(spec: Spec, st: Status): Summary {
    var failed := CountStudents(st.students, Failed) + CountSpares(st.spares, Failed);
    Summary(
      |spec.students|,
      spec.spares,
      CountEmails(st.students, EmailSent),
      CountEmails(st.students, EmailFailed),
      Max(|st.students| + |st.spares| - failed, 0),
      failed)
  }

  /** Gauges and the status summary, skipped once the exam is being torn down. */
  function Finish(j: Job, c: Ctx): Ctx {
    if c.status.phase == TearingDown then c
    else
      var gauges := {OfExam(SecondsUntilUnlock, j.x), OfExam(SecondsUntilLock, j.x),
                     OfExam(InstancesTotal, j.x), OfExam(InstancesHealthy, j.x), OfExam(InstancesFailed, j.x)};
      var phase := if c.status.phaseEntry.Some? then {PhaseDuration(j.x, c.status.phase)} else {};
      c.(status := c.status.(summary := Some(Summarize(j.spec, c.status))),
         series := c.series + gauges + phase)
  }

  function Reconcile(j: Job, c: Ctx): Out {
    var o := Dispatch(j, Begin(j, c));
    o.(c := Finish(j, o.c))
  }
}
