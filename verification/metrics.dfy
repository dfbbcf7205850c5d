/** The labelled metric series the controller keeps, exam by exam. */
module Metrics {
  import opened ExamApi
  import opened Objects

  /** The vectors labelled by exam and namespace only. */
  datatype Vector =
    | InstancesTotal
    | InstancesHealthy
    | InstancesFailed
    | EmailsSentTotal
    | EmailsFailedTotal
    | DryRunPassed
    | DryRunFailures
    | SecondsUntilUnlock
    | SecondsUntilLock
    | SpareSwaps

  /** One labelled series. A vector's label list is fixed, so it is the shape of a constructor. */
  datatype Series =
    | OfExam(vector: Vector, exam: Ref)
    | PhaseTransition(exam: Ref, source: Phase, target: Phase)
    | ProvisionDuration(exam: Ref, student: string)
    | PhaseDuration(exam: Ref, phase: Phase)

  /** The series that remain when every series of one exam is gone. */
  function Without(series: set<Series>, x: Ref): set<Series> {
    set s | s in series && s.exam != x
  }

  ghost function PhaseSeries(series: set<Series>, x: Ref): set<Series> {
    set s | s in series && s.PhaseDuration? && s.exam == x
  }

  class ExamMetrics {
    var series: set<Series>

    constructor ()
      ensures series == {}
    {
      series := {};
    }

    method Touch(s: Series)
      modifies this
      ensures series == old(series) + {s}
    {
      series := series + {s};
    }

    method DeleteLabelValues(s: Series)
      modifies this
      ensures series == old(series) - {s}
    {
      series := series - {s};
    }

    /** Removes the transition series of `x`, whatever their other labels. */
    method DeleteTransitions(x: Ref)
      modifies this
      ensures series == set s | s in old(series) && !(s.PhaseTransition? && s.exam == x)
    {
      series := set s | s in series && !(s.PhaseTransition? && s.exam == x);
    }

    method DeleteProvisionDurations(x: Ref)
      modifies this
      ensures series == set s | s in old(series) && !(s.ProvisionDuration? && s.exam == x)
    {
      series := set s | s in series && !(s.ProvisionDuration? && s.exam == x);
    }

    method DeletePhaseDurations(x: Ref)
      modifies this
      ensures series == set s | s in old(series) && !(s.PhaseDuration? && s.exam == x)
    {
      series := set s | s in series && !(s.PhaseDuration? && s.exam == x);
    }

    /** Vector by vector, and yet no series of `x` survives and none of another exam is lost. */
    method CleanupExam(x: Ref)
      modifies this
      ensures series == Without(old(series), x)
    {
      DeleteTransitions(x);
      DeleteLabelValues(OfExam(InstancesTotal, x));
      DeleteLabelValues(OfExam(InstancesHealthy, x));
      DeleteLabelValues(OfExam(InstancesFailed, x));
      DeleteLabelValues(OfExam(EmailsSentTotal, x));
      DeleteLabelValues(OfExam(EmailsFailedTotal, x));
      DeleteLabelValues(OfExam(DryRunPassed, x));
      DeleteLabelValues(OfExam(DryRunFailures, x));
      DeleteLabelValues(OfExam(SecondsUntilUnlock, x));
      DeleteLabelValues(OfExam(SecondsUntilLock, x));
      DeleteProvisionDurations(x);
      DeletePhaseDurations(x);
      DeleteLabelValues(OfExam(SpareSwaps, x));
      forall v: Vector ensures OfExam(v, x) !in series {
        match v {
          case InstancesTotal => case InstancesHealthy => case InstancesFailed =>
          case EmailsSentTotal => case EmailsFailedTotal =>
          case DryRunPassed => case DryRunFailures =>
          case SecondsUntilUnlock => case SecondsUntilLock => case SpareSwaps =>
        }
      }
      forall s ensures s in series <==> s in Without(old(series), x) {
        match s {
          case OfExam(v, y) =>
          case PhaseTransition(y, p, q) =>
          case ProvisionDuration(y, n) =>
          case PhaseDuration(y, p) =>
        }
      }
    }
  }
}
