/** The webhook's mail window over whole runs: which exams, from admission on, lose a mail to it. */
module MailWindow {
  import opened Prelude
  import opened ExamApi
  import opened Timetable
  import opened Webhook
  import opened Objects
  import opened Oracle
  import opened Pass
  import opened System
  import opened Alignment
  import opened Identity
  import opened Mailing
  import opened Recovery
  import opened Arrival
  import opened Deadline
  import Decimal

  // Passes as steps of a run.

  /** The passes come in order, none before the present, and each is one that can happen. */
  ghost predicate Happens(u: State, wakes: seq<Wake>) {
    && InOrder(wakes) && (wakes != [] ==> u.clock <= wakes[0].at)
    && forall k :: 0 <= k < |wakes| ==> wakes[k].env.Valid()
  }

  /** Let the time pass until each pass in turn. */
  ghost function Drain(clock: int, wakes: seq<Wake>): seq<Step>
    requires InOrder(wakes) && (wakes != [] ==> clock <= wakes[0].at)
    decreases |wakes|
  {
    if wakes == [] then []
    else
      assert |wakes| > 1 ==> wakes[0].at <= wakes[1].at;
      [Tick(wakes[0].at - clock), Reconciled(wakes[0].env, true)] + Drain(wakes[0].at, wakes[1..])
  }

  /** Passes at given instants are what a run of ticks and saved passes does. */
  lemma {:induction false} PassesAreRun(m: Machine, u: State, wakes: seq<Wake>)
    requires Happens(u, wakes)
    ensures Legal(m, u, Drain(u.clock, wakes))
    ensures Run(m, u, Drain(u.clock, wakes)) == Passes(m, u, wakes)
    decreases |wakes|
  {
    hide AfterPass;
    if wakes != [] {
      var first := [Tick(wakes[0].at - u.clock), Reconciled(wakes[0].env, true)];
      var rest := Drain(wakes[0].at, wakes[1..]);
      var at := u.(clock := wakes[0].at);
      var t := AfterPass(m, at, wakes[0].env, true);
      assert Apply(m, u, first[0]) == at && Apply(m, at, first[1]) == t;
      assert t.clock == wakes[0].at by { KeepsClock(m, at, wakes[0].env); }
      TwoSteps(m, u, first);
      RunAppend(m, u, first, rest);
      assert |wakes| > 1 ==> wakes[0].at <= wakes[1].at;
      PassesAreRun(m, t, wakes[1..]);
    }
  }

  lemma KeepsClock(m: Machine, s: State, env: Env)
    ensures AfterPass(m, s, env, true).clock == s.clock
  {
    hide Reconcile;
  }

  ghost function Drained(m: Machine, u: State, wakes: seq<Wake>): State
    requires Happens(u, wakes)
  {
    Run(m, u, Drain(u.clock, wakes))
  }

  // The window.

  ghost predicate Reached(m: Machine, u: State) {
    exists s, steps :: Initial(m, s) && Legal(m, s, steps) && u == Run(m, s, steps)
  }

  /** Does everyone get a mail at this pace, in every state that any admitted exam can reach? */
  ghost predicate AlwaysInTime(interval: int, cost: int) {
    forall m, u, wakes :: Reached(m, u) && Happens(u, wakes) && Steady(u, wakes, interval, cost) ==>
      NonePending(Drained(m, u, wakes).c.status.students)
  }

  lemma FastMailArrives(m: Machine, u: State, wakes: seq<Wake>, interval: int, cost: int)
    requires Reached(m, u) && Happens(u, wakes) && Steady(u, wakes, interval, cost)
    requires interval > 0 && 0 <= 2 * cost <= interval
    ensures NonePending(Drained(m, u, wakes).c.status.students)
  {
    hide CountEmails, NonePending, Passes, LockTime, GoodStudent, GoodSpare, IsLabelValue, Run, Legal, Drain;
    var s, steps :| Initial(m, s) && Legal(m, s, steps) && u == Run(m, s, steps);
    InitialLinedUp(m, s);
    RunLinedUp(m, s, steps);
    PassesAreRun(m, u, wakes);
    CountAtMost(u.c.status.students, EmailPending);
    WideEnough(|u.spec.students|, |wakes|, interval, cost, EmailBefore(u.spec.email));
    SteadyDrainIff(m, u, wakes, interval, cost);
  }

  // A class of any size, with distinct ids.

  function ClassOf(n: nat, window: int, sendInterval: int): Spec {
    Spec(Template("exam:1", "small", 8080), Schedule(window + 1, HOUR, 1.0, window + 1, 0, None),
         seq(n, i => Student(Decimal.Print(i), "student@example.org")),
         Email(window, sendInterval, "teacher@example.org", "exam@example.org", "Exam"), 0)
  }

  const HOST := Machine(Ref("algebra", "school"), "exam-algebra-0", Platform("example.org", ""))

  function Admitted(spec: Spec): State {
    State(0, spec, Ctx(EmptyStatus, map[], [], {}))
  }

  lemma PrintIsLabelValue(i: nat)
    requires i < Decimal.Power10(63)
    ensures IsLabelValue(Decimal.Print(i))
  {
    Decimal.DigitsFew(i, 63);
    var s := Decimal.Digits(i);
    assert s[0] in s && s[|s| - 1] in s;
  }

  lemma ClassAdmitted(n: nat, window: int, sendInterval: int)
    requires 1 <= n <= Decimal.Power10(63) && window > 0
    requires 2 * window >= 3 * n * SendInterval(ClassOf(n, window, sendInterval).email)
    ensures Initial(HOST, Admitted(ClassOf(n, window, sendInterval)))
    ensures DistinctIDs(ClassOf(n, window, sendInterval))
    ensures var t := ComputeSchedule(ClassOf(n, window, sendInterval)); t.provision == 0 && t.email == 1
    ensures EmailBefore(ClassOf(n, window, sendInterval).email) == window
  {
    hide IsLabelValue, Decimal.Print;
    var spec := ClassOf(n, window, sendInterval);
    forall i | 0 <= i < n ensures IsLabelValue(spec.students[i].id) && spec.students[i].id != "" {
      PrintIsLabelValue(i);
      Decimal.ReadOfPrint(i);
    }
    forall i, k | 0 <= i < k < n ensures spec.students[i].id != spec.students[k].id {
      if Decimal.Print(i) == Decimal.Print(k) {
        Decimal.PrintInjective(i, k);
      }
    }
  }

  ghost function SteadyWakes(n: nat, start: int, pace: int): seq<Wake> {
    seq(n, (k: nat) => Wake(start + k * pace, Unhindered("")))
  }

  lemma WakesAre(n: nat, start: int, pace: int)
    requires n > 0 && pace >= 0
    ensures var w := SteadyWakes(n, start, pace);
            && |w| == n && w[0].at == start && InOrder(w)
            && (forall k :: 0 <= k < n ==> w[k].env.Valid())
            && forall k :: 0 <= k < n - 1 ==> w[k + 1].at == w[k].at + pace
  {
    var w := SteadyWakes(n, start, pace);
    forall i, k | 0 <= i < k < n ensures w[i].at <= w[k].at {
      Grows(i, k, pace);
    }
    forall k | 0 <= k < n - 1 ensures w[k + 1].at == w[k].at + pace {
      Distributes(pace, k, 1);
    }
  }

  lemma {:induction false} AllCounted(students: seq<StudentStatus>)
    requires forall i :: 0 <= i < |students| ==> students[i].email == EmailPending
    ensures CountEmails(students, EmailPending) == |students|
  {
    if students != [] {
      AllCounted(students[..|students| - 1]);
    }
  }

  /** From admission of the class a run leads to Ready, and there the passes of a steady drain leave
      someone without mail, if the last of them starts after the window. */
  lemma ClassMisses(n: nat, window: int, sendInterval: int, interval: int, cost: int)
      returns (u: State, wakes: seq<Wake>)
    requires 1 <= n <= Decimal.Power10(63) && window > 0 && cost >= 0
    requires interval == SendInterval(ClassOf(n, window, sendInterval).email)
    requires 2 * window >= 3 * n * interval && (n - 1) * (interval + cost) >= window
    ensures Reached(HOST, u) && Happens(u, wakes) && Steady(u, wakes, interval, cost)
    ensures u.spec == ClassOf(n, window, sendInterval) && |wakes| == n
    ensures !NonePending(Drained(HOST, u, wakes).c.status.students)
  {
    hide CountEmails, NonePending, Passes, Run, Legal, Drain, ComputeSchedule, Decimal.Power10, SteadyWakes, ValidSpec,
         LockTime, Gate.Provisioned, IsLabelValue, Decimal.Print, EmailBefore, ClassOf;
    var spec := ClassOf(n, window, sendInterval);
    var s := Admitted(spec);
    ClassAdmitted(n, window, sendInterval);
    var steps := ReadyReached(HOST, s);
    u := Run(HOST, s, steps);
    wakes := SteadyWakes(n, 1, cost + interval);
    WakesAre(n, 1, cost + interval);
    AllCounted(u.c.status.students);
    ClassSize(n, window, sendInterval);
    assert ValidSpec(spec);
    PassesAreRun(HOST, u, wakes);
    SteadyDrainIff(HOST, u, wakes, interval, cost);
  }

  lemma ClassSize(n: nat, window: int, sendInterval: int)
    ensures |ClassOf(n, window, sendInterval).students| == n
  {
  }

  lemma Roomy()
    ensures 6 * 0x8000_0000_0000_0000 + 2 <= Decimal.Power10(63)
  {
    assert Decimal.Power10(20) == 100_000_000_000_000_000_000 by {
      assert Decimal.Power10(5) == 100_000;
      assert Decimal.Power10(10) == 10_000_000_000;
      assert Decimal.Power10(15) == 1_000_000_000_000_000;
    }
    PowerGrows(20, 63);
  }

  lemma {:induction false} PowerGrows(a: nat, b: nat)
    requires a <= b
    ensures Decimal.Power10(a) <= Decimal.Power10(b)
    decreases b
  {
    if a < b {
      PowerGrows(a, b - 1);
    }
  }

  /** At the given interval and time per mail, every student of every exam is mailed before unlock, from
      whatever state it has reached, if a mail takes at most half the interval; and for any interval that
      a duration can hold, only if. */
  lemma WindowSufficesIff(interval: int, cost: int)
    requires interval > 0 && cost >= 0
    ensures 2 * cost <= interval ==> AlwaysInTime(interval, cost)
    ensures interval < 0x8000_0000_0000_0000 ==> (AlwaysInTime(interval, cost) <==> 2 * cost <= interval)
  {
    hide Steady, Drained, NonePending, Reached, Happens, Decimal.Power10;
    if 2 * cost <= interval {
      forall m, u, wakes | Reached(m, u) && Happens(u, wakes) && Steady(u, wakes, interval, cost)
        ensures NonePending(Drained(m, u, wakes).c.status.students)
      {
        FastMailArrives(m, u, wakes, interval, cost);
      }
    } else if interval < 0x8000_0000_0000_0000 {
      Roomy();
      var u, wakes := TightClassMisses(interval, cost);
      assert !NonePending(Drained(HOST, u, wakes).c.status.students);
    }
  }

  lemma TightClassMisses(interval: int, cost: int) returns (u: State, wakes: seq<Wake>)
    requires interval > 0 && 2 * cost > interval && 6 * interval + 2 <= Decimal.Power10(63)
    ensures Reached(HOST, u) && Happens(u, wakes) && Steady(u, wakes, interval, cost)
    ensures !NonePending(Drained(HOST, u, wakes).c.status.students)
  {
    hide Steady, Drained, NonePending, Reached, Happens, Decimal.Power10;
    var n: nat := 6 * interval + 2;
    var window := 3 * (3 * interval + 1) * interval;
    assert window > 0 by { assert (3 * interval + 1) * interval > 0; }
    assert 2 * window == 3 * n * interval;
    TooNarrow(n, interval, cost, window);
    u, wakes := ClassMisses(n, window, interval, interval, cost);
  }

  /** So the defaults do not go together: an exam of nine students with distinct ids, admitted with the
      default interval of one second and the narrowest window, 13.5 s, reaches Ready by a run from which
      nine passes leave the ninth student unmailed, each an interval after the mail before it, which took
      the 700 ms of the three retries. Passes that the watch triggers sooner are another matter. */
  lemma DefaultsMissTheNinth() returns (u: State, wakes: seq<Wake>)
    ensures Reached(HOST, u) && Happens(u, wakes) && |wakes| == 9 == |u.spec.students|
    ensures u.spec.email.sendInterval == 0 && u.spec.email.before == 13_500 * MILLISECOND
    ensures Steady(u, wakes, SECOND, 700 * MILLISECOND)
    ensures !NonePending(Drained(HOST, u, wakes).c.status.students)
  {
    hide Steady, Drained, NonePending, Reached, Happens, Decimal.Power10;
    Roomy();
    u, wakes := ClassMisses(9, 13_500 * MILLISECOND, 0, SECOND, 700 * MILLISECOND);
  }
}
