/** Do all student mails go out before unlock? The window the webhook demands, the interval between
    passes and the time a mail takes decide it. */
module Deadline {
  import opened ExamApi
  import opened Timetable
  import opened Webhook
  import opened Oracle
  import opened Pass
  import opened System
  import opened Lifecycle
  import opened Wakeup
  import opened Mailing
  import opened Retry

  /** A pass at some instant. */
  datatype Wake = Wake(at: int, env: Env)

  /** Passes at the given instants, all of them saved, with no edit in between. */
  function Passes(m: Machine, s: State, wakes: seq<Wake>): State
    decreases |wakes|
  {
    if wakes == [] then s
    else Passes(m, AfterPass(m, s.(clock := wakes[0].at), wakes[0].env, true), wakes[1..])
  }

  function PendingMails(s: State): nat {
    CountEmails(s.c.status.students, EmailPending)
  }

  lemma {:induction false} CountSame(a: seq<StudentStatus>, b: seq<StudentStatus>, e: EmailStatus)
    requires SameEmails(a, b)
    ensures CountEmails(a, e) == CountEmails(b, e)
    decreases |a|
  {
    if a != [] {
      CountSame(a[..|a| - 1], b[..|b| - 1], e);
    }
  }

  lemma {:induction false} CountOneLess(a: seq<StudentStatus>, b: seq<StudentStatus>, i: nat)
    requires |a| == |b| && i < |a| && a[i].email == EmailPending && b[i].email != EmailPending
    requires forall k :: 0 <= k < |a| && k != i ==> a[k] == b[k]
    ensures CountEmails(b, EmailPending) == CountEmails(a, EmailPending) - 1
    decreases |a|
  {
    var n := |a| - 1;
    if i == n {
      CountSame(a[..n], b[..n], EmailPending);
    } else {
      CountOneLess(a[..n], b[..n], i);
    }
  }

  lemma {:induction false} PendingFound(students: seq<StudentStatus>)
    ensures CountEmails(students, EmailPending) > 0 <==> NextPending(students, 0).Some?
  {
    hide NextPending;
    if CountEmails(students, EmailPending) == 0 {
      NoneCounted(students);
    } else if NextPending(students, 0).None? {
      SomeCounted(students);
    }
  }

  lemma {:induction false} NoneCounted(students: seq<StudentStatus>)
    requires CountEmails(students, EmailPending) == 0
    ensures NonePending(students)
  {
    if students != [] {
      NoneCounted(students[..|students| - 1]);
      forall i | 0 <= i < |students| ensures students[i].email != EmailPending {
        if i < |students| - 1 { assert students[i] == students[..|students| - 1][i]; }
      }
    }
  }

  lemma {:induction false} SomeCounted(students: seq<StudentStatus>)
    requires NonePending(students)
    ensures CountEmails(students, EmailPending) == 0
  {
    if students != [] {
      SomeCounted(students[..|students| - 1]);
    }
  }

  lemma {:induction false} CountAtMost(students: seq<StudentStatus>, e: EmailStatus)
    ensures CountEmails(students, e) <= |students|
  {
    if students != [] {
      CountAtMost(students[..|students| - 1], e);
    }
  }

  /** Mails are due and the exam is not open yet. */
  ghost predicate InMailWindow(s: State) {
    s.c.status.phase == Ready && AllEmailsSent !in s.c.status.conditions
  }

  /** Before unlock a pass sends one of the pending mails and keeps the exam in the window. */
  lemma PassBeforeUnlock(m: Machine, s: State, env: Env)
    requires InMailWindow(s) && PendingMails(s) > 0
    requires ComputeSchedule(s.spec).email <= s.clock < s.spec.schedule.unlock
    ensures var t := AfterPass(m, s, env, true);
            && InMailWindow(t) && PendingMails(t) == PendingMails(s) - 1 && t.spec == s.spec
            && |t.c.mails| == |s.c.mails| + 1
  {
    hide Reconcile, ComputeSchedule, CountEmails, NextPending;
    var j := JobOf(m, s, env);
    PendingFound(s.c.status.students);
    assert Draining(j, s.c) by { ReadyStays(j, s.c); }
    DrainMails(j, s.c);
    var i := NextPending(s.c.status.students, 0).value;
    CountOneLess(s.c.status.students, Reconcile(j, s.c).c.status.students, i);
    ReadyStays(j, s.c);
    PassPhase(j, s.c);
  }

  lemma ReadyStays(j: Job, c: Ctx)
    requires c.status.phase == Ready
    ensures Begin(j, c).status.phase == if j.now < j.spec.schedule.unlock then Ready else Phase.Unlocked
  {
    hide ComputeSchedule;
  }

  /** From unlock on no pass sends a student mail: whoever is pending stays pending. */
  lemma PassAfterUnlock(m: Machine, s: State, env: Env)
    requires Rank(s.c.status.phase) >= 2 && s.spec.schedule.unlock <= s.clock
    ensures var t := AfterPass(m, s, env, true);
            Rank(t.c.status.phase) >= 2 && PendingMails(t) == PendingMails(s) && t.spec == s.spec
  {
    hide Reconcile, ComputeSchedule, CountEmails, NextPending, MailCount;
    var j := JobOf(m, s, env);
    PassPhase(j, s.c);
    if s.c.status.phase == Ready {
      ReadyStays(j, s.c);
    }
    QuietPass(j, s.c);
    CountSame(s.c.status.students, Reconcile(j, s.c).c.status.students, EmailPending);
  }

  ghost predicate InOrder(wakes: seq<Wake>) {
    forall i, k :: 0 <= i < k < |wakes| ==> wakes[i].at <= wakes[k].at
  }

  lemma {:induction false} PassesAfterUnlock(m: Machine, s: State, wakes: seq<Wake>)
    requires Rank(s.c.status.phase) >= 2
    requires forall k :: 0 <= k < |wakes| ==> s.spec.schedule.unlock <= wakes[k].at
    ensures PendingMails(Passes(m, s, wakes)) == PendingMails(s)
    decreases |wakes|
  {
    hide AfterPass, CountEmails;
    if wakes != [] {
      PassAfterUnlock(m, s.(clock := wakes[0].at), wakes[0].env);
      PassesAfterUnlock(m, AfterPass(m, s.(clock := wakes[0].at), wakes[0].env, true), wakes[1..]);
    }
  }

  /** As many passes as pending mails, in order, from the mail time on: every student's mail is
      attempted if and only if the last of these passes comes before unlock. */
  lemma {:induction false} AllMailedIff(m: Machine, s: State, wakes: seq<Wake>)
    requires InMailWindow(s) && wakes != [] && |wakes| == PendingMails(s) && InOrder(wakes)
    requires ComputeSchedule(s.spec).email <= wakes[0].at
    ensures NonePending(Passes(m, s, wakes).c.status.students) <==> wakes[|wakes| - 1].at < s.spec.schedule.unlock
    decreases |wakes|
  {
    hide AfterPass, CountEmails, ComputeSchedule, NonePending;
    var s0 := s.(clock := wakes[0].at);
    if wakes[0].at < s.spec.schedule.unlock {
      PassBeforeUnlock(m, s0, wakes[0].env);
      var t := AfterPass(m, s0, wakes[0].env, true);
      if |wakes| == 1 {
        NoneCounted(t.c.status.students);
        assert Passes(m, s, wakes) == Passes(m, t, []) == t;
      } else {
        AllMailedIff(m, t, wakes[1..]);
      }
    } else {
      forall k | 0 <= k < |wakes| ensures s.spec.schedule.unlock <= wakes[k].at {
        assert k > 0 ==> wakes[0].at <= wakes[k].at;
      }
      PassesAfterUnlock(m, s, wakes);
      var u := Passes(m, s, wakes).c.status.students;
      if NonePending(u) {
        SomeCounted(u);
      }
    }
  }

  // The pace of the drain.

  /** Each pass follows the previous one after the send interval and whatever the mail took. */
  ghost predicate Paced(spec: Spec, wakes: seq<Wake>, cost: seq<int>) {
    && |cost| == |wakes|
    && forall k :: 0 <= k < |wakes| - 1 ==>
         wakes[k].at <= wakes[k + 1].at <= wakes[k].at + cost[k] + SendInterval(spec.email)
  }

  lemma {:induction false} PacedBound(spec: Spec, wakes: seq<Wake>, cost: seq<int>, k: nat)
    requires Paced(spec, wakes, cost) && k < |wakes|
    requires forall i :: 0 <= i < |wakes| ==> 2 * cost[i] <= SendInterval(spec.email)
    ensures 2 * (wakes[k].at - wakes[0].at) <= 3 * k * SendInterval(spec.email)
    ensures wakes[0].at <= wakes[k].at
  {
    if k > 0 {
      PacedBound(spec, wakes, cost, k - 1);
      assert wakes[(k - 1) + 1].at <= wakes[k - 1].at + cost[k - 1] + SendInterval(spec.email);
    }
  }

  lemma {:induction false} PacedOrder(spec: Spec, wakes: seq<Wake>, cost: seq<int>, i: nat, k: nat)
    requires Paced(spec, wakes, cost) && i <= k < |wakes|
    ensures wakes[i].at <= wakes[k].at
  {
    if i < k {
      PacedOrder(spec, wakes, cost, i, k - 1);
      assert wakes[k - 1].at <= wakes[(k - 1) + 1].at;
    }
  }

  lemma Products(n: int, k: int, d: int)
    requires k <= n - 1 && d > 0
    ensures 3 * n * d - 3 * k * d >= 3 * d
  {
    var left := n - k - 1;
    assert left * d >= 0;
    assert n == k + 1 + left;
    calc {
      3 * n * d;
      3 * (k + 1 + left) * d;
      3 * k * d + 3 * d + 3 * (left * d);
    }
  }

  /** For every admitted spec: if the drain starts at the mail time and no mail takes more than half the
      send interval, every mail is attempted at least one and a half intervals before unlock. */
  lemma EmailDeadline(m: Machine, s: State, wakes: seq<Wake>, cost: seq<int>)
    requires ValidSpec(s.spec) && InMailWindow(s) && |s.c.status.students| <= |s.spec.students|
    requires wakes != [] && |wakes| == PendingMails(s) && wakes[0].at == ComputeSchedule(s.spec).email
    requires Paced(s.spec, wakes, cost)
    requires forall i :: 0 <= i < |wakes| ==> 2 * cost[i] <= SendInterval(s.spec.email)
    ensures NonePending(Passes(m, s, wakes).c.status.students)
    ensures forall k :: 0 <= k < |wakes| ==>
              2 * (s.spec.schedule.unlock - wakes[k].at) >= 3 * SendInterval(s.spec.email)
  {
    hide CountEmails, NonePending, LockTime;
    var n, d := |s.spec.students|, SendInterval(s.spec.email);
    CountAtMost(s.c.status.students, EmailPending);
    forall k | 0 <= k < |wakes| ensures 2 * (s.spec.schedule.unlock - wakes[k].at) >= 3 * d {
      PacedBound(s.spec, wakes, cost, k);
      Products(n, k, d);
    }
    forall i, k | 0 <= i < k < |wakes| ensures wakes[i].at <= wakes[k].at {
      PacedOrder(s.spec, wakes, cost, i, k);
    }
    AllMailedIff(m, s, wakes);
  }

  /** With the controller's three retries an interval of 1.4 s is enough, whatever fails. */
  lemma RetriesMeetDeadline(m: Machine, s: State, wakes: seq<Wake>, cost: seq<int>, outcomes: seq<Outcomes>)
    requires ValidSpec(s.spec) && InMailWindow(s) && |s.c.status.students| <= |s.spec.students|
    requires wakes != [] && |wakes| == PendingMails(s) && wakes[0].at == ComputeSchedule(s.spec).email
    requires Paced(s.spec, wakes, cost) && |outcomes| == |cost|
    requires forall i :: 0 <= i < |wakes| ==> cost[i] == SleepOf(outcomes[i], 0, 3)
    requires SendInterval(s.spec.email) >= 1400 * MILLISECOND
    ensures NonePending(Passes(m, s, wakes).c.status.students)
  {
    hide CountEmails, NonePending, ComputeSchedule, ValidSpec;
    forall i | 0 <= i < |wakes| ensures 2 * cost[i] <= SendInterval(s.spec.email) {
      ThreeRetriesSleep(outcomes[i], 0);
    }
    EmailDeadline(m, s, wakes, cost);
  }

  // A steady pace decides it exactly.

  /** The drain starts at the mail time, one pass per pending mail, and every mail takes `cost`. */
  ghost predicate Steady(s: State, wakes: seq<Wake>, interval: int, cost: int) {
    && ValidSpec(s.spec) && InMailWindow(s) && SendInterval(s.spec.email) == interval
    && wakes != [] && |wakes| == PendingMails(s) && wakes[0].at == ComputeSchedule(s.spec).email
    && forall k :: 0 <= k < |wakes| - 1 ==> wakes[k + 1].at == wakes[k].at + cost + interval
  }

  lemma {:induction false} SteadyTimes(s: State, wakes: seq<Wake>, interval: int, cost: int, k: nat)
    requires Steady(s, wakes, interval, cost) && k < |wakes|
    ensures wakes[k].at == wakes[0].at + k * (interval + cost)
  {
    hide ValidSpec, InMailWindow, PendingMails, ComputeSchedule;
    if k > 0 {
      SteadyTimes(s, wakes, interval, cost, k - 1);
      assert wakes[(k - 1) + 1].at == wakes[k - 1].at + cost + interval;
      assert k * (interval + cost) == (k - 1) * (interval + cost) + (interval + cost);
    }
  }

  lemma Grows(i: int, k: int, d: int)
    requires i <= k && d >= 0
    ensures i * d <= k * d
  {
    assert (k - i) * d >= 0;
  }

  /** For every admitted spec: at a steady pace all mails go out if and only if the last one starts within
      the mail window. */
  lemma SteadyDrainIff(m: Machine, s: State, wakes: seq<Wake>, interval: int, cost: int)
    requires Steady(s, wakes, interval, cost) && cost >= 0
    ensures NonePending(Passes(m, s, wakes).c.status.students) <==>
              (|wakes| - 1) * (interval + cost) < EmailBefore(s.spec.email)
  {
    hide ValidSpec, CountEmails, NonePending, Passes, LockTime;
    forall i, k | 0 <= i < k < |wakes| ensures wakes[i].at <= wakes[k].at {
      SteadyTimes(s, wakes, interval, cost, i);
      SteadyTimes(s, wakes, interval, cost, k);
      Grows(i, k, interval + cost);
    }
    SteadyTimes(s, wakes, interval, cost, |wakes| - 1);
    AllMailedIff(m, s, wakes);
  }

  lemma Distributes(k: int, a: int, b: int)
    ensures k * (a + b) == k * a + k * b
  {
  }

  lemma WideEnough(n: int, p: int, interval: int, cost: int, window: int)
    requires 1 <= p <= n && interval > 0 && 0 <= 2 * cost <= interval && 2 * window >= 3 * n * interval
    ensures (p - 1) * (interval + cost) < window
  {
    var slack := interval - 2 * cost;
    assert (p - 1) * slack >= 0 && (n - p) * interval >= 0;
    calc {
      3 * n * interval;
      3 * ((p - 1) * interval) + 3 * ((n - p) * interval) + 3 * interval;
      2 * ((p - 1) * (interval + cost)) + (p - 1) * slack + 3 * ((n - p) * interval) + 3 * interval;
    }
  }

  /** With one unit of excess a mail, more than 3 * interval students are too many. */
  lemma TooNarrow(n: int, interval: int, cost: int, window: int)
    requires interval > 0 && 2 * cost > interval && n > 3 * interval && 2 * window == 3 * n * interval
    ensures (n - 1) * (interval + cost) >= window
  {
    var k := n - 1;
    var x, y := k * interval, k * cost;
    Distributes(k, interval, cost);
    assert k * (2 * cost - interval) == 2 * y - x by { Distributes(k, cost, cost - interval); Distributes(k, cost - interval, interval); }
    assert 2 * y - x >= k by { Grows(1, 2 * cost - interval, k); }
    assert n * interval == x + interval by { Distributes(interval, k, 1); }
    assert 3 * n * interval == 3 * (n * interval);
  }

  /** In the narrowest window, a class of more than 3 * interval students whose mails take more than half
      the interval each is left with someone unmailed. */
  lemma SlowMailMisses(m: Machine, s: State, wakes: seq<Wake>, interval: int, cost: int)
    requires Steady(s, wakes, interval, cost) && 2 * cost > interval
    requires |wakes| == |s.spec.students| > 3 * interval
    requires 2 * EmailBefore(s.spec.email) == 3 * |s.spec.students| * interval
    ensures !NonePending(Passes(m, s, wakes).c.status.students)
  {
    hide ValidSpec, CountEmails, NonePending, Passes, LockTime;
    SteadyDrainIff(m, s, wakes, interval, cost);
    TooNarrow(|wakes|, interval, cost, EmailBefore(s.spec.email));
  }

  /** So the default interval does not leave room for the default retries: with nine students, the
      narrowest window the webhook accepts and mails that use up their retries, the ninth mail is not
      sent, because its pass comes 13.6 s after the mail time and unlock comes after 13.5 s. */
  lemma DefaultIntervalMisses(m: Machine, s: State, wakes: seq<Wake>)
    requires Steady(s, wakes, SECOND, 700 * MILLISECOND) && |wakes| == 9 == |s.spec.students|
    requires 2 * EmailBefore(s.spec.email) == 3 * 9 * SECOND
    ensures !NonePending(Passes(m, s, wakes).c.status.students)
  {
    hide ValidSpec, CountEmails, NonePending, Passes, LockTime;
    SteadyDrainIff(m, s, wakes, SECOND, 700 * MILLISECOND);
  }
}
