/** The admission webhook: which specs, and which edits of a spec, the API server accepts. */
module Webhook {
  import opened Prelude
  import opened ExamApi
  import opened Timetable

  datatype Reason =
    | NoStudents
    | DurationNotPositive
    | MultiplierBelowOne
    | InstructorEmailMissing
    | SparesNegative
    | EmailWindowTooShort
    | ProvisionWindowTooShort
    | InvalidStudentID(index: nat)
    | ImageImmutable
    | PortImmutable
    | ResourcesImmutable
    | UnlockImmutable
    | SparesImmutable
    | StudentCountImmutable
    | StudentIDImmutable(index: nat)
    | DurationImmutable
    | MultiplierImmutable
    | LockTimeInPast

  datatype Verdict = Accepted | Rejected(reason: Reason)

  predicate IsAlphanumeric(c: char) {
    'a' <= c <= 'z' || 'A' <= c <= 'Z' || '0' <= c <= '9'
  }

  /** Kubernetes' rule for a label value: empty, or at most 63 characters, alphanumeric at both ends. */
  predicate IsLabelValue(s: string) {
    s == "" ||
    (|s| <= 63 && IsAlphanumeric(s[0]) && IsAlphanumeric(s[|s| - 1]) &&
     forall c :: c in s ==> IsAlphanumeric(c) || c == '-' || c == '_' || c == '.')
  }

  /** What the rest of the model may take for granted about a stored spec. */
  ghost predicate ValidSpec(spec: Spec) {
    && spec.students != []
    && spec.schedule.duration > 0
    && EffectiveMultiplier(spec.schedule.timeMultiplier) >= 1.0
    && spec.email.instructorEmail != ""
    && spec.spares >= 0
    && 2 * EmailBefore(spec.email) >= 3 * |spec.students| * SendInterval(spec.email)
    && ProvisionBefore(spec.schedule) > EmailBefore(spec.email)
    && forall i :: 0 <= i < |spec.students| ==> IsLabelValue(spec.students[i].id)
  }

  function CheckIDs(students: seq<Student>, i: nat): (v: Verdict)
    requires i <= |students|
    ensures v.Accepted? <==> forall k :: i <= k < |students| ==> IsLabelValue(students[k].id)
    decreases |students| - i
  {
    if i == |students| then Accepted
    else if !IsLabelValue(students[i].id) then Rejected(InvalidStudentID(i))
    else CheckIDs(students, i + 1)
  }

  function ValidateFields(spec: Spec): (v: Verdict)
    ensures v.Accepted? <==> ValidSpec(spec)
  {
    if |spec.students| == 0 then Rejected(NoStudents)
    else if spec.schedule.duration <= 0 then Rejected(DurationNotPositive)
    else if EffectiveMultiplier(spec.schedule.timeMultiplier) < 1.0 then Rejected(MultiplierBelowOne)
    else if spec.email.instructorEmail == "" then Rejected(InstructorEmailMissing)
    else if spec.spares < 0 then Rejected(SparesNegative)
    else if 2 * EmailBefore(spec.email) < 3 * |spec.students| * SendInterval(spec.email) then
      Rejected(EmailWindowTooShort)
    else if ProvisionBefore(spec.schedule) <= EmailBefore(spec.email) then Rejected(ProvisionWindowTooShort)
    else CheckIDs(spec.students, 0)
  }

  function CompareIDs(before: seq<Student>, after: seq<Student>, i: nat): (v: Verdict)
    requires |before| == |after| && i <= |before|
    ensures v.Accepted? <==> forall k :: i <= k < |before| ==> before[k].id == after[k].id
    decreases |before| - i
  {
    if i == |before| then Accepted
    else if before[i].id != after[i].id then Rejected(StudentIDImmutable(i))
    else CompareIDs(before, after, i + 1)
  }

  /** What stays fixed once the recorded phase is past Pending. */
  ghost predicate SameIdentity(before: Spec, after: Spec) {
    && before.template == after.template
    && before.schedule.unlock == after.schedule.unlock
    && before.spares == after.spares
    && |before.students| == |after.students|
    && forall i :: 0 <= i < |before.students| ==> before.students[i].id == after.students[i].id
  }

  predicate SameLength(before: Schedule, after: Schedule) {
    before.duration == after.duration && before.timeMultiplier == after.timeMultiplier
  }

  function CheckLockEdit(phase: Phase, before: Schedule, after: Schedule, now: int): Verdict {
    if phase in {Phase.Locked, TearingDown} && before.duration != after.duration then
      Rejected(DurationImmutable)
    else if phase in {Phase.Locked, TearingDown} && before.timeMultiplier != after.timeMultiplier then
      Rejected(MultiplierImmutable)
    else if phase == Phase.Unlocked && !SameLength(before, after) && LockTime(after) < now then
      Rejected(LockTimeInPast)
    else Accepted
  }

  /** `phase` is the phase recorded on the stored exam when the edit is admitted at `now`. */
  function ValidateUpdate(phase: Phase, before: Spec, after: Spec, now: int): (v: Verdict)
    ensures v.Accepted? ==> ValidSpec(after)
    ensures v.Accepted? && phase !in {Unset, Pending} ==> SameIdentity(before, after)
    ensures v.Accepted? && phase in {Phase.Locked, TearingDown} ==>
              LockTime(after.schedule) == LockTime(before.schedule)
    ensures v.Accepted? && phase == Phase.Unlocked ==>
              LockTime(after.schedule) == LockTime(before.schedule) || now <= LockTime(after.schedule)
    ensures ValidSpec(after) && phase in {Unset, Pending} ==> v.Accepted?
    ensures v.Accepted? <==>
              ValidSpec(after)
              && (phase in {Unset, Pending}
                  || (SameIdentity(before, after)
                      && (phase in {Phase.Locked, TearingDown} ==> SameLength(before.schedule, after.schedule))
                      && (phase == Phase.Unlocked ==>
                            SameLength(before.schedule, after.schedule) || now <= LockTime(after.schedule))))
  {
    var fields := ValidateFields(after);
    if fields.Rejected? then fields
    else if phase in {Unset, Pending} then Accepted
    else if before.template.image != after.template.image then Rejected(ImageImmutable)
    else if before.template.port != after.template.port then Rejected(PortImmutable)
    else if before.template.resources != after.template.resources then Rejected(ResourcesImmutable)
    else if before.schedule.unlock != after.schedule.unlock then Rejected(UnlockImmutable)
    else if before.spares != after.spares then Rejected(SparesImmutable)
    else if |before.students| != |after.students| then Rejected(StudentCountImmutable)
    else
      var ids := CompareIDs(before.students, after.students, 0);
      if ids.Rejected? then ids
      else CheckLockEdit(phase, before.schedule, after.schedule, now)
  }

  lemma StretchAtLeast(d: int, m: real)
    requires d > 0 && m >= 1.0
    ensures Truncate(d as real * m) >= d
  {
    assert d as real * m >= d as real * 1.0;
  }

  lemma LastsAtLeast(s: Schedule)
    requires s.duration > 0 && EffectiveMultiplier(s.timeMultiplier) >= 1.0
    ensures s.unlock + s.duration <= LockTime(s)
  {
    hide EffectiveMultiplier;
    StretchAtLeast(s.duration, EffectiveMultiplier(s.timeMultiplier));
  }

  lemma WindowPositive(n: int, d: int)
    requires n > 0 && d > 0
    ensures 3 * n * d > 0
  {
  }

  /** For every admitted spec the instants come in order: provision, mail, unlock, lock; and the exam
      lasts at least its nominal duration. Only a retention below zero, which is admitted, puts the
      deadline before the lock. */
  lemma AdmittedTimesOrdered(spec: Spec)
    requires ValidSpec(spec)
    ensures var t := ComputeSchedule(spec);
            && t.provision < t.email < spec.schedule.unlock
            && spec.schedule.unlock + spec.schedule.duration <= t.lock
            && (t.lock <= t.deadline <==> spec.schedule.retention >= 0)
  {
    hide LockTime, IsLabelValue, EffectiveMultiplier;
    LastsAtLeast(spec.schedule);
    WindowPositive(|spec.students|, SendInterval(spec.email));
  }
}
