/** The four instants derived from a spec and the phase they call for. */
module Timetable {
  import opened Prelude
  import opened ExamApi

  function EffectiveMultiplier(m: real): real {
    if m == 0.0 then 1.5 else m
  }

  function LockTime(s: Schedule): int {
    s.unlock + Truncate(s.duration as real * EffectiveMultiplier(s.timeMultiplier))
  }

  function ProvisionBefore(s: Schedule): int {
    if s.provisionBefore == 0 then HOUR else s.provisionBefore
  }

  function EmailBefore(e: Email): int {
    if e.before == 0 then 30 * MINUTE else e.before
  }

  function SendInterval(e: Email): (d: int)
    ensures d > 0
  {
    if e.sendInterval <= 0 then SECOND else e.sendInterval
  }

  function Retention(s: Schedule): int {
    if s.retention == 0 then 24 * HOUR else s.retention
  }

  function ComputeSchedule(spec: Spec): Times {
    var s := spec.schedule;
    Times(
      s.unlock - ProvisionBefore(s),
      s.unlock - EmailBefore(spec.email),
      LockTime(s),
      LockTime(s) + Retention(s))
  }

  /** The phase a pass at `now` moves to; `deadline` is the recorded retention deadline. */
  function DesiredPhase(current: Phase, times: Option<Times>, spec: Spec, now: int): Phase {
    var t := ComputeSchedule(spec);
    match current
    case Unset => if now < t.provision then Pending else Provisioning
    case Pending => if now < t.provision then Pending else Provisioning
    case Provisioning => Provisioning
    case Ready => if now < spec.schedule.unlock then Ready else Unlocked
    case Unlocked => if now < t.lock then Unlocked else Locked
    case Locked => if times.Some? && now >= times.value.deadline then TearingDown else Locked
    case TearingDown => TearingDown
  }

  /** A phase is left only for the next one on the chain. */
  lemma DesiredPhaseStep(current: Phase, times: Option<Times>, spec: Spec, now: int)
    ensures var d := DesiredPhase(current, times, spec, now);
            Rank(current) <= Rank(d) <= Rank(current) + 1
            && d != Unset
            && (Rank(d) == Rank(current) && current != Unset ==> d == current)
  {
  }
}
