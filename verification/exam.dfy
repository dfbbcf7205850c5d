/** The Exam resource: what the instructor asks for and what the controller records. */
module ExamApi {
  import opened Prelude

  datatype Phase = Unset | Pending | Provisioning | Ready | Unlocked | Locked | TearingDown

  /** Position of a phase on the lifecycle chain; a new exam counts as Pending. */
  function Rank(p: Phase): (r: nat)
    ensures r <= 5
  {
    match p
    case Unset => 0
    case Pending => 0
    case Provisioning => 1
    case Ready => 2
    case Unlocked => 3
    case Locked => 4
    case TearingDown => 5
  }

  datatype InstancePhase = NoInstance | Provisioned | InstanceUnlocked | InstanceLocked | Failed

  datatype EmailStatus = NoEmail | EmailPending | EmailSent | EmailFailed

  /** The condition types whose status is True. */
  datatype Condition =
    | AllEmailsSent
    | DryRunComplete
    | DryRunFailed
    | InstructorNotifiedLock
    | InstructorNotifiedUnlock
    | NetworkPolicyEnforced
    | ProvisionedCondition
    | ProvisioningDegraded

  // Spec. Times and durations are nanoseconds; the multiplier is an exact number.

  datatype Template = Template(image: string, resources: string, port: int)

  datatype Schedule = Schedule(
    unlock: int,
    duration: int,
    timeMultiplier: real,
    provisionBefore: int,
    retention: int,
    dryRun: Option<int>)

  datatype Student = Student(id: string, email: string)

  datatype Email = Email(
    before: int,
    sendInterval: int,
    instructorEmail: string,
    from: string,
    subject: string)

  datatype Spec = Spec(
    template: Template,
    schedule: Schedule,
    students: seq<Student>,
    email: Email,
    spares: int)

  // Status.

  datatype StudentStatus = StudentStatus(
    id: string,
    slug: string,
    url: string,
    phase: InstancePhase,
    email: EmailStatus,
    sentAt: Option<int>)

  const BlankStudent := StudentStatus("", "", "", NoInstance, NoEmail, None)

  datatype SpareStatus = SpareStatus(slug: string, url: string, phase: InstancePhase)

  const BlankSpare := SpareStatus("", "", NoInstance)

  datatype Times = Times(provision: int, email: int, lock: int, deadline: int)

  datatype DryRun = DryRun(completedAt: int, passed: nat, failed: nat)

  datatype Summary = Summary(
    totalStudents: int,
    totalSpares: int,
    emailsSent: nat,
    emailsFailed: nat,
    healthy: nat,
    failed: nat)

  datatype Message = NoMessage | InProgress(students: int, spares: int) | Ended | NamespaceDeleted

  datatype Status = Status(
    phase: Phase,
    phaseEntry: Option<int>,
    message: Message,
    conditions: set<Condition>,
    times: Option<Times>,
    dryRun: Option<DryRun>,
    students: seq<StudentStatus>,
    spares: seq<SpareStatus>,
    summary: Option<Summary>)

  const EmptyStatus := Status(Unset, None, NoMessage, {}, None, None, [], [], None)

  // Go's named durations.

  const MILLISECOND := 1_000_000
  const SECOND := 1000 * MILLISECOND
  const MINUTE := 60 * SECOND
  const HOUR := 60 * MINUTE
}
