# Exam reconciler: a verified model

The exam controller gives every student of an exam a private web application for a limited time. An `Exam`
resource moves along one chain of phases (Pending, Provisioning, Ready, Unlocked, Locked, TearingDown) while a
reconciler creates and removes objects in the exam's own namespace, sends mail, and records what it did in the
resource's status. Every call it makes may fail, its status write may be lost, the spec may be edited under it, and
other actors may delete its objects. This project models the reconciler together with the admission webhook that
restricts those edits, and proves what holds in every run.

## How the model is built

* `Pass.Reconcile` is one pass as a function of the exam, the clock, the cluster and an oracle. Module `Controller`
  holds the same pass as classes with mutable status, store, mail log and metric series; each of its methods, loops
  included, is proved to compute what the function of `Pass` says, so whatever is proved about the functions holds of
  the methods.
* `Oracle.Env` tells the outcome of every call of a pass in advance, one site per call: it goes through, is refused
  without effect, or takes effect while its reply is lost. It also gives the order of every listing (any complete
  order), the generated slugs, which mails are undelivered, and the verdict of the dry run.
* `System` interleaves clock ticks, edits that pass the webhook, deployments becoming ready or unready, deletion of the
  exam's objects by others, anything happening elsewhere in the cluster, and passes whose status write is kept or
  lost. "In every run" below means over every such sequence of steps.
* Times and durations are integers in nanoseconds. The time multiplier is an exact number, and the stretched duration
  is cut off towards zero, as Go's conversion does. A pass reads the clock once.
* Label keys are an enumeration, so two constant keys of the program cannot coincide. Policy names are kept as slug and
  part; `Objects.PolicyNamesDistinct` shows that the printed names are as different as the structured ones. The store
  is strongly consistent, and deleting a namespace removes its contents at once.
* Student ids are taken to be distinct and non-empty only where an exam is completed by clean passes (`Recovery`,
  `Leftovers`, `Taking`, `Completion`, `Coherence`, `Attribution`, `Stranded`, `Arrival` and the runs built on it,
  `Templates.EditAfterLostPass`), and slugs to be fresh only there and in `Sharing.EmptyIDStuck`. What duplicate or
  empty ids lead to, as long as the clean-up of deployments succeeds, is `Gate.DuplicateIDsStuck` and
  `Sharing.EmptyIDStuck`.

## What is false of the code

* The gate to Ready counts deployments. It means what it says exactly when no deployment carries an unrecorded slug
  (`Gate.OpenGateSoundIff`, `Gate.EnteringReady`); the failure of the clean-up is only logged, and then an orphan can
  stand in for a spare that was never recorded (`Orphans.OrphanOpensGate`, by a run).
* The webhook's mail window leaves one and a half send intervals per student. That suffices for every admitted exam
  exactly when a mail takes at most half an interval (`MailWindow.WindowSufficesIff`; for one exam,
  `Deadline.SteadyDrainIff`). At the default interval of one second and with the controller's own three retries
  (700 ms) it does not, provided each pass comes no sooner than the requested interval after the mail before it
  (`MailWindow.DefaultsMissTheNinth`, by a run): every status write re-triggers the watch
  (`internal/controller/exam_controller.go:1122-1123`), so a pass may also come at once.
* One refused creation can strand an exam in Provisioning, because an unfilled spare slot is given the slug at its own
  index in the sorted list of the spares that are there, whether or not that slug is recorded. A spare that is not
  created leaves a blank slot, and the next pass fills it with the slug of the spare recorded after it
  (`Stranded.OneRefusalStrands`, by a run). A blank slot is not the only cause: a spare that was deployed by a pass whose
  status write was lost can sort before the recorded ones and shift them to a later index
  (`Stranded.LostWriteStrands`, by a run). Either way two spares count as one for good. `Completion.CleanPassSharesIff`
  and, after runs with unused slugs, `Attribution.ReachableSharesIff` say when a clean pass does this; where every
  deployment belongs to an entry, blank slots are the only cause (`Attribution.CoherentPassSharesIff`).
* A template edit that is accepted because a provisioning pass lost its status write does not reach what that pass
  made: the deployments keep image, resources and port, the services and policies the port, while a route made later
  points to the new port (`Templates.EditAfterLostPass`). `Templates.RunUpToDateIff` says which runs are free of it.
* A metric series of an old phase survives a lost status write if the next pass does not work in the phase where the
  lost one ended (`Stray.RunSingleIffMended`): if provisioning is put off by an edit after a lost provisioning pass
  (`Telemetry.StaleSeriesReached`), or the exam is extended after a lost locking pass (`Telemetry.LostLockReached`).
  Without edits there are exactly two more cases (`Stray.UneditedSingleIff`): the very first pass, still before
  provisioning, loses its write and the next comes only when provisioning is due (`Stray.MissedPendingReached`); or the
  pass that enters Ready loses its write and the next finds the gate shut (`Stray.ShutGateReached`).
* A Ready exam that is reconciled only after its lock time is opened all the same, until the next pass, and longer if it is
  extended first (`Closing.OpensLateIff`, `Closing.LateExamOpens`, `Closing.LateExamNextIff`).
* The namespace computed for an exam whose name contains a dot within its first 49 characters is not a valid label
  (`Names.NamespaceValidIff`).
* A retention below zero passes the webhook and puts the deadline before the lock (`Webhook.AdmittedTimesOrdered`).

Where the documentation and the code differ, the model follows the code. `docs/operations.md` has drift corrected in
every Ready pass, but a pass that sends a student mail returns before it touches a policy
(`internal/controller/exam_controller.go:537-539`, `Mailing.DrainMails`). `docs/crd-reference.md` wants an edited lock
time in the future, but one equal to the present is accepted (`api/v1alpha1/exam_webhook.go:154`).

## Model

| member | source | states |
|---|---|---|
| Timetable.DesiredPhaseStep | internal/controller/exam_controller.go:263-300 | a phase is left only for the next one on the chain, and never for the empty one |
| Webhook.ValidateFields | api/v1alpha1/exam_webhook.go:41-92 | a spec is accepted if and only if it has students, a positive length, a multiplier of at least one, a wide enough mail window inside the provisioning window, and valid ids |
| Webhook.ValidateUpdate | api/v1alpha1/exam_webhook.go:98-161 | an edit is accepted if and only if the spec is valid and the recorded phase permits what it changes; an edit accepted while Unlocked leaves the lock time alone or puts it no earlier than the present |
| Webhook.AdmittedTimesOrdered | internal/controller/exam_controller.go:239-261 | for every admitted spec provision, mail, unlock and lock come in that order and the exam lasts its nominal time; the deadline follows the lock if and only if the retention is not negative |
| Instants.ScheduleIs | internal/controller/exam_controller.go:157-166 | under a multiplier p/q, 3/2 if none is set, the exam lasts its duration times p/q less the fraction of a nanosecond; provisioning, mail and teardown keep the given distances from unlock and lock, and an hour, half an hour and a day stand in for zero |
| Instants.PassRecordsInstants | internal/controller/exam_controller.go:335-340 | every pass, whatever fails, records these instants of the spec it read |
| Instants.LocksWhenOver | internal/controller/exam_controller.go:283-287 | a saved pass over an Unlocked exam locks it if and only if its stretched duration is over |
| Instants.ExtensionAcceptedIff | api/v1alpha1/exam_webhook.go:143-158 | a changed length is accepted while Unlocked if and only if the stretched new duration does not end before the present |
| Lifecycle.PassPhase | internal/controller/exam_controller.go:342-378 | after any pass the phase is the desired one, or Ready when the gate opened in that pass |
| Lifecycle.RunOnTime | internal/controller/exam_controller.go:263-300 | in every run, at or past Unlocked implies unlock is past, and at or past Locked implies the current spec's lock time is past, whatever edits and lost writes happened |
| Lifecycle.RunNonDecreasing | internal/controller/exam_controller.go:263-300 | in every run the recorded phase never goes back, and TearingDown is never left |
| Lifecycle.NeverSkips | internal/controller/exam_controller.go:342-378 | a run that gets past Ready, Unlocked or Locked was in it at some step |
| Lifecycle.ReadyReachesTearingDown | internal/controller/exam_controller.go:277-296 | take a Ready exam at any time, let any run take it to where its schedule is over, and let three passes be saved without further edits: it is torn down, in exactly three phase changes since it was Ready |
| Lifecycle.UneditedExamEnds | internal/controller/exam_controller.go:263-300 | without any edit it suffices that the clock passes the unlock, lock and deadline of the spec as it was at the start |
| Alignment.PassAligned | internal/controller/exam_controller.go:741-811 | a pass keeps the status lists aligned with the spec, position by position, and changes no recorded id, slug or URL |
| Identity.EditAligned | api/v1alpha1/exam_webhook.go:103-131 | no accepted edit moves a recorded entry away from its student |
| Identity.RunLinedUp | internal/controller/exam_controller.go:741-811 | in every run the status lists are empty before provisioning, aligned with the current spec afterwards, and whatever identity was recorded stays for good |
| Footprint.WellMadeMapsBack | internal/controller/exam_controller.go:223-237 | every object the provisioner makes leads back to exactly its exam, and carries its slug |
| Objects.PolicyNamesDistinct | internal/network/policy.go:35-102 | two policies have one printed name only if they are the same policy of the same slug |
| Interference.PassContained | internal/controller/exam_controller.go:302-410 | a pass changes only objects of its own namespace and its own series, makes only well-made objects, opens access only in Unlocked, and only appends mail |
| Interference.PassesDoNotInterfere | internal/controller/exam_controller.go:663-703 | to an exam in another namespace a pass, teardown included, is a step that leaves that exam's objects and series alone |
| Tenancy.ExamsDoNotInterfere | internal/controller/exam_controller.go:168-194 | the same for the namespaces computed from two exams' names, unless kept names and hash suffixes both coincide |
| Tenancy.ExamsApart | internal/controller/exam_controller.go:168-194 | so exams do not interfere if the hashes of namespace/name differ in the first eight characters, or if their names differ and have at most 49 characters |
| Tidiness.RunTidy | internal/provisioner/resources.go:41-132 | in every run each object in the exam's namespace is one the provisioner makes, for some slug, from the present template or another one |
| Templates.StepUpToDateIff | internal/provisioner/resources.go:41-132 | if all objects follow the spec's image, resources and port, a step keeps that if and only if it is no accepted edit of a template field that an object in the namespace was made from |
| Templates.RunUpToDateIff | api/v1alpha1/exam_webhook.go:103-117 | the objects follow the template in every state of a run if and only if every accepted edit in it fits what the namespace holds at that moment |
| Templates.UpToDateWithoutLostStart | internal/controller/exam_controller.go:396-399 | in every run in which no pass that starts provisioning loses its status write, all deployments, services, routes and policies follow the template in every state |
| Templates.EditAfterLostPass | internal/controller/exam_controller.go:681-703 | a clean provisioning pass loses its write, any change of the template is accepted, and the next clean pass records every student on the deployment, service and policies of the old template |
| Gate.OpenGateSoundIff | internal/controller/exam_controller.go:813-824 | when the count is right and all are ready, there is one running instance per student and spare, on distinct slugs, if and only if no deployment carries an unrecorded slug |
| Gate.EnteringReady | internal/controller/exam_controller.go:432-498 | a pass that enters Ready, from any reachable state and after any failures, leaves exactly one running instance per student and spare if and only if it leaves no orphan, and always when the deployment clean-up went through |
| Gate.DuplicateIDsStuck | api/v1alpha1/exam_webhook.go:85-89 | an exam with two students of one id, which the webhook accepts, does not pass the gate in any pass whose deployment clean-up succeeds |
| Sharing.SharedRunStuck | internal/controller/exam_controller.go:813-824 | an exam that records one slug for two entries, students or spares, becomes Ready in no run whose deployment clean-ups succeed |
| Taking.StudentsTake | internal/controller/exam_controller.go:741-759 | with fresh slugs, no failure and no slug recorded twice before, the student loop records one twice if and only if the deployment listed first for a student without entry carries a recorded slug; if not, what the spare slots will find is as it was before the loop |
| Taking.SparesTake | internal/controller/exam_controller.go:761-786 | then the spare loop records a slug twice if and only if some unfilled slot i has more than i slugs to find, counting the spares deployed before the loop and those recorded before slot i, and the i-th of them in ascending order is recorded already |
| Completion.CleanPassCompletesIff | internal/controller/exam_controller.go:432-498 | a clean pass with fresh slugs, over whatever was recorded and left, fills and deploys every entry; its slugs are all different if and only if none was recorded twice and no entry without slug takes a recorded one as in the two rows above; it enters Ready if and only if they are and all deployments are ready |
| Completion.CleanPassSharesIff | internal/controller/exam_controller.go:741-786 | in every reachable provisioning state, deployments that nobody records included, a clean pass with fresh slugs ends with a slug recorded twice if and only if one was before or an entry without slug takes a recorded one |
| Completion.TakenSlugStrands | internal/controller/exam_controller.go:813-824 | and after such a pass the exam is Ready in no later run whose deployment clean-ups succeed |
| Attribution.RunAttributed | internal/controller/exam_controller.go:741-786 | in every run whose passes generate only unused slugs, whatever fails, is lost, drifts or is edited, until the gate opens no student shares a slug, and the deployment of a recorded slug is labelled for its entry |
| Attribution.ReachableSharesIff | internal/controller/exam_controller.go:774-783 | so after such a run a clean pass ends with a slug recorded twice if and only if one was before or an unfilled spare slot finds a recorded one at its index |
| Attribution.SavedPassCoherent | internal/controller/exam_controller.go:471-490 | after such a run a saved pass without error whose deployment clean-up succeeds leaves every deployment with a recorded entry it is labelled for |
| Coherence.TakesIffBlocked | internal/controller/exam_controller.go:774-783 | where every deployment belongs to a recorded entry, an entry without slug takes a recorded one if and only if a blank spare slot comes before a spare that is deployed |
| Attribution.CoherentPassSharesIff | internal/controller/exam_controller.go:774-783 | in such a state a clean pass ends with a slug recorded twice if and only if one was before or a blank spare slot comes before a deployed spare |
| Stranded.OneRefusalStrands | internal/controller/exam_controller.go:774-783 | the run that gets there from admission: distinct ids, two spares, one refused creation, nothing else failing |
| Stranded.LostWriteStrands | internal/controller/exam_controller.go:747-783 | a run that gets there without a blank slot: one refused creation, then one lost status write; before the last pass the recorded slugs are all different |
| Sharing.EmptyIDStuck | internal/controller/exam_controller.go:770-783 | an exam with spares and a student of empty id, which the webhook accepts, gives her slug to a spare in its first clean pass and so becomes Ready in no later run whose deployment clean-ups succeed |
| Orphans.OrphanOpensGate | internal/controller/exam_controller.go:488-498 | a legal run from an admitted exam, with one lost write, leads to a pass whose deployment clean-up fails and which opens the gate with no spare recorded |
| Recovery.StudentsRecover | internal/controller/exam_controller.go:432-450 | without failures the student loop gives every student the slug of a leftover deployment of hers if there is one, else a fresh one, and makes her instance |
| Recovery.SparesRecover | internal/controller/exam_controller.go:452-469 | without failures spare i takes the i-th leftover spare slug in ascending order, or a fresh one when they run out |
| Recovery.CleanedExactly | internal/controller/exam_controller.go:841-900 | the clean-up then leaves exactly the four objects of each recorded slug, unchanged where they were there before, with each student's deployment labelled hers |
| Recovery.RecoveryConverges | internal/controller/exam_controller.go:414-523 | from empty lists and leftovers of the exam's own instances one clean provisioning pass leaves one instance per student and spare and nothing else, and enters Ready if and only if all of them are ready |
| Recovery.LostStatusRecovered | internal/controller/exam_controller.go:302-410 | the same for a whole pass over an exam whose entire status was lost |
| Leftovers.ReachableLeftover | internal/controller/exam_controller.go:681-703 | every reachable state in which Ready is not recorded holds only leftovers that the recovery results are about: no route, no ingress-allow, no blank slug |
| Leftovers.ReachableRecovers | internal/controller/exam_controller.go:741-786 | so after any run from admission whose status writes were all lost, one clean pass with fresh slugs restores the exam |
| Outcome.PassTells | internal/controller/exam_controller.go:414-506 | a provisioning pass records each student as Failed or Provisioned according to whether one of her four creations failed, leaves the slot of a failed spare as it was, and marks the exam as degraded if and only if some creation failed; if the namespace or the certificate fails it errs and touches no instance; it observes how long new instances took and, entering Ready, mails the spare links |
| Deletion.PassDeletesOnlyOrphans | internal/controller/exam_controller.go:841-882 | whatever a provisioning pass deletes is a deployment, service or policy with a slug that it leaves unrecorded |
| Arrival.ReadyReached | internal/controller/exam_controller.go:302-410 | from admission of any exam with distinct ids a legal run, through a lost write, leads to Ready at the provisioning time, with the gate sound and every student's mail still to be sent |
| Access.RunGated | internal/controller/exam_controller.go:996-1039 | in every run whatever lets anyone in was made after unlock, for the port the spec still has |
| Access.NoAccessBeforeUnlock | internal/controller/exam_controller.go:578-592 | in every reachable state before unlock the exam's namespace holds no route and no ingress-allow policy |
| Access.LockedPassRemovesRoutes | internal/controller/exam_controller.go:1057-1068 | a Locked pass without error leaves no route with the exam's labels |
| Access.ClosedPassRemovesAllows | internal/controller/exam_controller.go:1033-1037 | a closing enforcement leaves no ingress-allow of any entry whose delete was not refused |
| Access.NeverReopened | internal/controller/exam_controller.go:618-636 | once Locked is recorded, a route or ingress-allow that is gone comes back in no run |
| Closing.LockedForGood | internal/controller/exam_controller.go:618-661 | after a recorded Locked pass without error and with no delete refused, no state of any later run holds a route or an ingress-allow |
| Teardown.TeardownDeletes | internal/controller/exam_controller.go:663-677 | a pass that tears down without error leaves neither the exam's namespace nor anything in it, and everything else as it was; it errs if and only if the delete fails |
| Teardown.TornDownForGood | internal/controller/exam_controller.go:663-677 | once such a pass is recorded, no state of any later run holds the namespace or anything in it |
| Teardown.ExamEndsGone | internal/controller/exam_controller.go:277-296 | take a Ready exam, let any run take it past its schedule, save three passes without an edit: after the next pass whose delete goes through, nothing of the exam is in the cluster in any later run |
| Closing.ReachableAccess | internal/controller/exam_controller.go:996-1068 | every reachable state meets what LockedForGood asks: access was opened on time and only for recorded entries |
| Closing.OpensLateIff | internal/controller/exam_controller.go:277-287 | at or after the lock time a pass opens access if and only if it finds the exam Ready |
| Closing.LateExamOpens | internal/controller/exam_controller.go:578-592 | such a pass, with no call refused, makes a route and an ingress-allow for every recorded entry |
| Closing.LateExamNextIff | internal/controller/exam_controller.go:283-287 | after any steps that save no status, the next pass works in Locked if and only if the lock time of the spec of then is past, which without an edit it is, and in Unlocked otherwise |
| Closing.LateExamExtended | api/v1alpha1/exam_webhook.go:143-158 | any admitted spec of the same identity with a lock time to come is accepted for a late exam and keeps it open |
| Closing.LateExamShut | internal/controller/exam_controller.go:618-661 | if it is not extended and that next pass locks cleanly, no state of any later run holds a route or an ingress-allow |
| Reachability.EnforceEstablishes | internal/controller/exam_controller.go:1004-1038 | an enforcement with no call refused puts back every policy, and when open every route, that had drifted away |
| Reachability.TrafficOfSlug | internal/network/policy.go:35-128 | under Kubernetes' additive meaning the policies of one slug decide its traffic, whatever policies other slugs have |
| Reachability.EnforcementDecidesTraffic | internal/controller/exam_controller.go:996-1039 | after such an enforcement in a reachable state an instance accepts traffic if and only if the exam is open and the peer is the ingress controller on the template's TCP port, and sends only to cluster DNS on port 53 |
| Waiting.WaitingPass | internal/controller/exam_controller.go:526-575 | a Ready pass that sends no mail records that all are sent once mails are due, makes the dry run if and only if it is time, and enforces the policies of a closed exam |
| Waiting.WaitingPassCorrects | internal/controller/exam_controller.go:559 | with no call refused it puts back the deny-all and egress policies of every recorded instance, and no ingress-allow of one is left |
| Waiting.DrainingPassWaits | internal/controller/exam_controller.go:533-539 | after a mail it waits for the spec's interval, or for a second |
| Decimal.PrintMeans | internal/controller/exam_controller.go:1006 | a port is printed in decimal digits of its value, without leading zeros |
| Decimal.PrintReadRoundTrip | internal/network/policy.go:93-96 | a 32-bit port survives being printed into a label, read back and converted |
| Wakeup.PassAsksForNextWake | internal/controller/exam_controller.go:366-378 | a pass without error asks for a later pass, changed the phase or is tearing down; outside provisioning and the mail drain it asks for exactly the first instant at which anything is due; the drain oversleeps unlock by less than an interval |
| Wakeup.HandlerAsksForNextWake | internal/controller/exam_controller.go:526-661 | each waiting handler asks to be woken at the first instant at which a pass would move the exam, send a mail or run the dry run |
| Mailing.DrainMails | internal/controller/exam_controller.go:902-924 | a draining pass sends exactly one mail, to the first pending student, records and counts its outcome, and changes nothing else of the lists, the conditions or the cluster |
| Mailing.MailGoesToItsStudent | internal/controller/exam_controller.go:902-906 | in a reachable state the drain's index is within the spec, and the mail goes to that very student with the link https://slug.domain of her own slug |
| Links.RunHosted | internal/provisioner/resources.go:90-131 | in every run each route of the exam is for the host slug.domain, with the platform's certificate |
| Links.LinksDiffer | internal/controller/exam_controller.go:107-109 | a link, and a host, determines its slug |
| Links.LinksLead | internal/controller/exam_controller.go:1017-1028 | after any run from admission, a pass that opens the exam with no call refused makes the link recorded for each entry lead, by the only route of the namespace for its host, to the service of the entry's own slug, on the spec's port |
| Links.ServiceServes | internal/provisioner/resources.go:76-88 | and the service of a slug selects the pods of that slug's deployment and of no other |
| Mailing.MailedAtMostOnce | internal/controller/exam_controller.go:531-545 | in every run a student is mailed at most once, plus once for every lost write of a pass that mailed her |
| Mailing.LatchHolds | internal/controller/exam_controller.go:540-544 | once set, the all-sent condition stays set and no student is pending in any later state |
| Notices.UnlockNoticeTells | internal/controller/exam_controller.go:594-610 | an Unlocked pass sends at most one notice, and it names exactly the students whose mail failed, one entry each |
| Notices.LockNoticeTells | internal/controller/exam_controller.go:638-657 | the notice of an errorless Locked pass counts the failed students, and the others, to all recorded ones |
| Notices.SpareLinksTell | internal/controller/exam_controller.go:508-517 | on entering Ready with every spare recorded the instructor is sent exactly the links of all spares, in order |
| Notices.NoticesDelivered | internal/controller/exam_controller.go:603-609 | in every run a notice has been delivered exactly as often as its delivery stands recorded or the record of one was lost |
| Deadline.AllMailedIff | internal/controller/exam_controller.go:531-539 | with as many passes as pending mails from the mail time on, every student is mailed if and only if the last pass comes before unlock |
| Deadline.EmailDeadline | api/v1alpha1/exam_webhook.go:62-74 | for every admitted spec, if no mail takes more than half the send interval, every mail is attempted at least one and a half intervals before unlock |
| Deadline.RetriesMeetDeadline | internal/controller/exam_controller.go:145 | with the controller's three retries an interval of 1.4 s suffices however many attempts fail |
| Deadline.SteadyDrainIff | internal/controller/exam_controller.go:531-539 | for every admitted spec, with each mail taking the same time, every student is mailed if and only if the last mail starts within the window before unlock |
| Deadline.SlowMailMisses | api/v1alpha1/exam_webhook.go:70-74 | in the narrowest admitted window a class of more than three times the interval, counted in nanoseconds, is left with someone unmailed as soon as a mail takes more than half the interval |
| MailWindow.PassesAreRun | internal/controller/exam_controller.go:531-539 | passes at given instants are what a legal run of ticks and saved passes does |
| MailWindow.WindowSufficesIff | api/v1alpha1/exam_webhook.go:70-74 | at a given interval and time per mail, every student of every exam is mailed before unlock, from any state a run from admission can reach, if a mail takes at most half the interval, and for any interval a 64-bit duration can hold only if |
| MailWindow.DefaultsMissTheNinth | api/v1alpha1/exam_webhook.go:62-74 | a run from admission of nine students with distinct ids, the default interval and the narrowest window, that leaves the ninth unmailed when every mail exhausts its retries and each pass comes an interval after the mail before it is done |
| Deadline.DefaultIntervalMisses | api/v1alpha1/exam_webhook.go:63-74 | the same from every state in which nine students of such an exam wait for their mail |
| Retry.RetrySender.Send | internal/notifier/email.go:60-76 | succeeds if and only if one of the first maxRetries + 1 attempts does, stops there, and sleeps (2^k - 1) * 100 ms after k failures that were followed by an attempt |
| Retry.AttemptsMade | internal/notifier/email.go:66-75 | the number of attempts is that of the first success, or maxRetries + 1 |
| Retry.ThreeRetriesSleep | internal/notifier/email.go:71-73 | three retries sleep at most 700 ms, and exactly that long when all attempts fail |
| Retry.FailNSender.Send | internal/notifier/email.go:84-90 | fails its first FailCount attempts and no later one |
| Retry.FailsFirstDelivered | internal/notifier/email.go:78-90 | against a sender that fails n times, delivery succeeds if and only if n is at most the retries, in n + 1 attempts |
| Counting.SummaryConserves | internal/controller/exam_controller.go:1070-1100 | healthy and failed make up all recorded instances, sent, failed and pending all students; from Ready on they add up to the spec |
| Counting.PassSummarizes | internal/controller/exam_controller.go:380-395 | the summary a pass records is that of the status it records |
| Tally.PassTallies | internal/controller/exam_controller.go:1070-1100 | in the summary a pass records, sent, failed and the failed instances are the numbers of the recorded entries that are so, the rest are healthy, and the totals are those of the spec |
| Tally.FailuresCounted | internal/controller/exam_controller.go:437-442 | after a provisioning pass without error the failed count is the number of students for whom a creation failed, plus the spares recorded as failed |
| Tally.PassMarks | internal/controller/exam_controller.go:583-636 | an opening pass marks every entry that has not failed as unlocked, a closing pass without error as locked; failed ones stay failed and nothing else of the entries changes |
| Counting.RunSameFailures | internal/controller/exam_controller.go:583-592 | from Ready on no run adds an entry or changes which instances count as failed |
| Counting.CountsStayFull | internal/controller/exam_controller.go:1070-1100 | once the gate was passed with every spare recorded, in every later run the counts add up to the spec's students and spares and the failed count stays what it was |
| Telemetry.PassSeries | internal/controller/exam_controller.go:347-394 | which phase-duration series a pass removes and adds, from any state; after an errorless teardown the exam has no series |
| Telemetry.PassCounts | internal/controller/exam_controller.go:347-394 | a pass sets the five gauges unless the exam is torn down, counts each change of phase it makes, and dates the phase exactly when it changes it |
| Telemetry.RunSeriesFollow | internal/controller/exam_controller.go:380-395 | in every run without lost writes an exam has at most one phase-duration series, that of its recorded phase |
| Telemetry.NoSeriesAfterTeardown | internal/controller/exam_controller.go:663-677 | a torn-down exam gets no series back in any run |
| Telemetry.SingleSeriesIff | internal/controller/exam_controller.go:347-360 | a pass leaves the single series of its phase if and only if it finds only those of the recorded phase and of the phase it is about to work in, and of Ready if the gate opens |
| Telemetry.RunSingleIff | internal/controller/exam_controller.go:396-399 | in a run that may lose any writes the exam has at most one duration series all along if and only if every pass finds what the previous row allows |
| Telemetry.LostWriteLeavesStaleSeries | internal/controller/exam_controller.go:396-399 | a lost write followed by an edit that puts provisioning off leaves two duration series |
| Telemetry.StaleSeriesReached | internal/controller/exam_controller.go:396-399 | the same by a legal run from admission of any exam |
| Telemetry.LostLockReached | internal/controller/exam_controller.go:347-351 | from admission of any exam with distinct ids a legal run leads to Unlocked beside a series of Locked: the write of the pass that locks is lost, and the exam is extended |
| Stray.RunSingleIffMended | internal/controller/exam_controller.go:347-360 | in a run that may lose any writes the exam has at most one duration series all along if and only if each pass finds recorded the phase in which the last pass ended, or begins or ends in it, or tears down |
| Stray.UneditedSingleIff | internal/controller/exam_controller.go:396-399 | in a run from admission without edits that fails if and only if the first recorded phase is lost while Pending and provisioning comes due before the next pass, or entering Ready is lost and the next pass finds the gate shut |
| Stray.MissedPendingReached | internal/controller/exam_controller.go:347-351 | the first of these: a legal run leads there from admission of any exam before its provisioning time |
| Stray.ShutGateReached | internal/controller/exam_controller.go:492-498 | from admission of any exam with distinct ids a legal run without edits leads to Provisioning beside a series of Ready |
| Metrics.ExamMetrics.CleanupExam | internal/metrics/metrics.go:109-124 | vector by vector it removes every series of the exam and none of another |
| Quiescence.HandlerTwice | internal/controller/exam_controller.go:526-677 | what a clean handler leaves, a second clean one at the same instant does not change |
| Quiescence.PassWorks | internal/controller/exam_controller.go:302-410 | a clean pass with the clock standing still either reaches a state no clean pass changes or lowers the measure of phases and mails ahead |
| Quiescence.ComesToRest | internal/controller/exam_controller.go:302-410 | from Ready with p pending mails, p + 3 clean passes at one instant reach a fixpoint of status, cluster, mail log and series |
| Names.ComputeExamNamespace | internal/controller/exam_controller.go:168-194 | the trimming loop computes the namespace that the next rows are about; for a name of at most 49 characters that is exam-, the name, a dash and eight characters of the hash of namespace/name |
| Names.NamespaceValidIff | internal/controller/exam_controller.go:168-194 | the namespace has at most 63 characters and is a valid label if and only if the kept part of the name has no dot, so always for an exam named by a label |
| Names.NamespaceSharedIff | internal/controller/exam_controller.go:176-193 | two exams share a namespace if and only if kept names and hash suffixes coincide |
| Names.HashedApart | internal/controller/exam_controller.go:176-177 | a namespace ends in the first eight characters of the hash of namespace/name, so exams hashed apart, or with different short names, have different namespaces |
| Names.FullNamesDiffer | internal/controller/exam_controller.go:176 | what is hashed is the same for two exams if and only if they are the same exam, as namespaces have no slash |
| Names.NamespaceShape | internal/controller/exam_controller.go:179-193 | a name of at most 49 characters is kept whole; of a longer one 49 are kept, filling 63, unless a dash is the last of them |
| Names.Generate | internal/slug/slug.go:15-29 | fills eight positions, the first a letter, each from its own draw; fails if and only if a draw fails |
| Names.SlugIsLabel | internal/slug/slug.go:13-14 | every slug is a label under section 2.3.1 of RFC 1035 and under section 2.1 of RFC 1123 |
| Names.EverySlugReachable | internal/slug/slug.go:17-26 | every slug is produced by exactly one choice of draws |
| Pass.FirstSlug | internal/controller/exam_controller.go:742-746 | finds a recorded non-empty slug of the id if and only if there is one |
| Pass.Put | internal/controller/exam_controller.go:788-811 | sets one entry, keeps the others and fills the gap with blanks |
| Controller.ExamReconciler.FindOrGenerateSlug | internal/controller/exam_controller.go:741-759 | the search loop and the fallbacks compute the student's slug as specified |
| Controller.ExamReconciler.FindOrGenerateSpareSlug | internal/controller/exam_controller.go:761-786 | collecting, sorting and indexing compute the spare's slug as specified |
| Controller.ExamReconciler.ProvisionInstance | internal/controller/exam_controller.go:681-703 | creates the four objects in turn and stops at the first error |
| Controller.ExamReconciler.SetStudentStatus | internal/controller/exam_controller.go:788-800 | the growing loop sets the entry of one student and no other |
| Controller.ExamReconciler.SetSpareStatus | internal/controller/exam_controller.go:802-811 | the growing loop sets the entry of one spare and no other |
| Controller.ExamReconciler.ProvisionAllStudents | internal/controller/exam_controller.go:431-450 | the student loop, with its early exit, does what the recursive specification says |
| Controller.ExamReconciler.ProvisionAllSpares | internal/controller/exam_controller.go:452-469 | the spare loop, which records nothing for a failed spare, does what the recursive specification says |
| Controller.ExamReconciler.CollectValidSlugs | internal/controller/exam_controller.go:826-839 | collects exactly the recorded non-empty slugs |
| Controller.ExamReconciler.CleanupOrphansOf | internal/controller/exam_controller.go:845-882 | deletes the listed orphans of one kind in turn, up to the first error |
| Controller.ExamReconciler.CleanupOrphanedResources | internal/controller/exam_controller.go:841-882 | cleans deployments, services and policies in that order, up to the first error |
| Controller.ExamReconciler.AllHealthy | internal/controller/exam_controller.go:813-824 | true if and only if the list call succeeds, every owned deployment is ready and their number is students plus spares |
| Controller.ExamReconciler.EnterReady | internal/controller/exam_controller.go:492-519 | records Ready, moves the phase series and mails the spare links if there are spares |
| Controller.ExamReconciler.ReconcileProvisioning | internal/controller/exam_controller.go:414-523 | the Provisioning handler refines its specification |
| Controller.ExamReconciler.CollectSlugs | internal/controller/exam_controller.go:1046-1055 | lists the recorded entries, students first |
| Controller.ExamReconciler.EnforcePolicies | internal/controller/exam_controller.go:996-1039 | entry by entry, errors ignored, the enforcement refines its specification |
| Controller.ExamReconciler.DeleteAllIngresses | internal/controller/exam_controller.go:1057-1068 | deletes the exam's routes in turn, up to the first error |
| Controller.ExamReconciler.SendNextPendingEmail | internal/controller/exam_controller.go:902-924 | mails the first pending student and records the outcome, or reports that there is none |
| Controller.ExamReconciler.RunDryRun | internal/controller/exam_controller.go:926-994 | records the verdict of the dry run in status, conditions and series, as specified for the next two rows |
| DryRuns.DryRunTells | internal/controller/exam_controller.go:967-987 | after the dry run the failure condition is set if and only if a check failed, and the policy condition if and only if the negative check found the policy enforced |
| DryRuns.RunTells | internal/controller/exam_controller.go:547-557 | in every run the conditions agree with the recorded dry run, and a recorded verdict is never revised |
| DryRuns.ReachableVerdict | internal/controller/exam_controller.go:967-987 | so in every reachable state the conditions say what the recorded dry run found |
| Controller.ExamReconciler.ReconcileReady | internal/controller/exam_controller.go:526-575 | the Ready handler refines its specification |
| Controller.ExamReconciler.MarkAll | internal/controller/exam_controller.go:583-592 | moves every entry that has not failed to the given phase |
| Controller.ExamReconciler.NotifyOnce | internal/controller/exam_controller.go:594-610 | sends the instructor's notice unless recorded as sent, and records it if delivered |
| Controller.ExamReconciler.ReconcileUnlock | internal/controller/exam_controller.go:578-616 | the Unlocked handler refines its specification |
| Controller.ExamReconciler.CountFailed | internal/controller/exam_controller.go:639-647 | failed and healthy students are counted and make up all students |
| Controller.ExamReconciler.ReconcileLocked | internal/controller/exam_controller.go:618-661 | the Locked handler refines its specification |
| Controller.ExamReconciler.ReconcileTeardown | internal/controller/exam_controller.go:663-677 | deletes the namespace, then drops the series and records TearingDown |
| Controller.ExamReconciler.UpdateMetricsSummary | internal/controller/exam_controller.go:1070-1108 | the counting loops compute the summary, and healthy plus failed make up all entries |
| Controller.ExamReconciler.BeginPass | internal/controller/exam_controller.go:335-360 | records the schedule, moves to the desired phase and drops the old phase's series |
| Controller.ExamReconciler.FinishPass | internal/controller/exam_controller.go:380-395 | sets gauges and summary unless the exam is being torn down |
| Controller.ExamReconciler.Reconcile | internal/controller/exam_controller.go:335-395 | a whole pass, on mutable state, refines the pass function that all results above are about |

## Left out

- Deletion: the finalizer, the failing read of the exam and the failing finalizer update; a pass over a deleted exam
  leaves its status unrecorded, so it is the end of the run.
- The Cilium policy provider: its meaning rests on Cilium's precedence of deny over allow, which is not in the repository.
- The TLS secret's contents: only whether copying it fails, which stops provisioning, is modelled.
- The dry run's own checks (`internal/smoketest`): its verdict is part of the oracle.
- Mail bodies and the SMTP exchange; a call of the sender is one outcome, and its retries are modelled in `Retry`.
- Metric values: only which series exist is modelled, and no series is shared between exams.
- Condition reasons, messages and transition times, and the free-text failures of the dry run.
- The informer cache, the rounding of recorded times to seconds, and the clock moving within one pass.
- Floating-point rounding and 64-bit overflow of durations: arithmetic is exact.
- The quality of the random source and of the hash; only that the hash is printed in hexadecimal is used.
- The API server's own validation of names, and a namespace that is still terminating.
- Phase strings other than the six defined ones and the empty one.
- Security contexts, replica counts and path types of the objects: constants that no branch depends on.
- Deadline.EmailDeadline: bounds the time between two passes from above; a status write re-triggers the watch, so no
  lower bound on the spacing of mails is claimed.
- MailWindow.DefaultsMissTheNinth: the miss is that of one spacing of passes, each an interval after the mail before it is
  done; passes that the watch re-triggers sooner may still mail everyone. The same holds of the misses in
  `MailWindow.WindowSufficesIff`, `Deadline.SteadyDrainIff`, `Deadline.SlowMailMisses` and `Deadline.DefaultIntervalMisses`.
- Access.NoAccessBeforeUnlock: other actors may delete objects of the exam but are taken not to create any in its namespace.
- Recovery.RecoveryConverges: distinct non-empty ids and fresh slugs are assumed; the webhook checks neither. Leftovers
  with routes, ingress-allows or blank slugs, which only exist once Ready is recorded, are not considered.
- Closing.LateExamOpens: how long it is until the next pass depends on the re-triggered watch and is not bounded.
- Attribution.ReachableSharesIff: the pass it is about is clean and its slugs are fresh; a colliding random slug is not
  considered.
