/** The exam as a transition system: edits, clock, drifting cluster and passes, interleaved in any order. */
module System {
  import opened ExamApi
  import opened Webhook
  import opened Objects
  import opened Store
  import opened Metrics
  import opened Oracle
  import opened Pass

  /** What never changes during a run. */
  datatype Machine = Machine(x: Ref, ns: string, platform: Platform)

  /** The clock, the stored spec, and the stored status with the world around it. */
  datatype State = State(clock: int, spec: Spec, c: Ctx)

  datatype Step =
    | Tick(elapsed: nat)
    | Edit(spec: Spec)
    | Readiness(key: Key, ready: nat)
    | Drift(key: Key)
    | Elsewhere(store: Cluster, series: set<Series>)
    | Reconciled(env: Env, saved: bool)

  function JobOf(m: Machine, s: State, env: Env): Job {
    Job(m.x, m.ns, m.platform, s.spec, s.clock, env)
  }

  function SetReady(store: Cluster, k: Key, n: nat): Cluster {
    if k in store && store[k].body.DeploymentBody?
    then store[k := store[k].(body := store[k].body.(ready := n))]
    else store
  }

  /** A pass whose status write is lost still did everything else. */
  function AfterPass(m: Machine, s: State, env: Env, saved: bool): State {
    var o := Reconcile(JobOf(m, s, env), s.c);
    s.(c := if saved then o.c else o.c.(status := s.c.status))
  }

  function Apply(m: Machine, s: State, step: Step): State {
    match step
    case Tick(elapsed) => s.(clock := s.clock + elapsed)
    case Edit(spec) =>
      if ValidateUpdate(s.c.status.phase, s.spec, spec, s.clock).Accepted? then s.(spec := spec) else s
    case Readiness(key, ready) => s.(c := s.c.(store := SetReady(s.c.store, key, ready)))
    case Drift(key) => s.(c := s.c.(store := s.c.store - {key}))
    case Elsewhere(store, series) => s.(c := s.c.(store := store, series := series))
    case Reconciled(env, saved) => AfterPass(m, s, env, saved)
  }

  /** Other actors may delete objects of the exam, but they create none and leave its series alone. */
  ghost predicate Enabled(m: Machine, s: State, step: Step) {
    match step
    case Elsewhere(store, series) =>
      && (forall k :: Local(k, m.ns) ==> (k in store <==> k in s.c.store) && (k in store ==> store[k] == s.c.store[k]))
      && (forall e: Series :: e.exam == m.x ==> (e in series <==> e in s.c.series))
    case Reconciled(env, saved) => env.Valid()
    case _ => true
  }

  function Run(m: Machine, s: State, steps: seq<Step>): State
    decreases |steps|
  {
    if steps == [] then s else Run(m, Apply(m, s, steps[0]), steps[1..])
  }

  ghost predicate Legal(m: Machine, s: State, steps: seq<Step>)
    decreases |steps|
  {
    steps == [] || (Enabled(m, s, steps[0]) && Legal(m, Apply(m, s, steps[0]), steps[1..]))
  }

  /** An exam that was just admitted, with nothing of its own in the cluster yet. */
  ghost predicate Initial(m: Machine, s: State) {
    && ValidSpec(s.spec)
    && s.c.status == EmptyStatus
    && s.c.mails == []
    && (forall k :: Local(k, m.ns) ==> k !in s.c.store)
    && (forall e :: e in s.c.series ==> e.exam != m.x)
  }

  lemma {:induction false} RunAppend(m: Machine, s: State, a: seq<Step>, b: seq<Step>)
    ensures Run(m, s, a + b) == Run(m, Run(m, s, a), b)
    ensures Legal(m, s, a + b) <==> Legal(m, s, a) && Legal(m, Run(m, s, a), b)
    decreases |a|
  {
    hide Apply, Enabled;
    if a == [] {
      assert a + b == b;
    } else {
      assert (a + b)[0] == a[0] && (a + b)[1..] == a[1..] + b;
      RunAppend(m, Apply(m, s, a[0]), a[1..], b);
    }
  }

  lemma TwoSteps(m: Machine, s: State, steps: seq<Step>)
    requires |steps| == 2
    ensures Run(m, s, steps) == Apply(m, Apply(m, s, steps[0]), steps[1])
    ensures Legal(m, s, steps) <==> Enabled(m, s, steps[0]) && Enabled(m, Apply(m, s, steps[0]), steps[1])
  {
    hide Apply, Enabled;
    assert steps[1..][1..] == [] && steps[1..][0] == steps[1];
    var t := Apply(m, s, steps[0]);
    assert Run(m, t, steps[1..]) == Run(m, Apply(m, t, steps[1]), []);
    assert Legal(m, t, steps[1..]) <==> Enabled(m, t, steps[1]);
  }

  lemma RunThree(m: Machine, s: State, a: Step, b: Step, c: Step)
    ensures Run(m, s, [a, b, c]) == Apply(m, Apply(m, Apply(m, s, a), b), c)
  {
    hide Apply;
    assert [a, b, c][1..] == [b, c] && [b, c][1..] == [c] && [c][1..] == [];
    var t, u := Apply(m, s, a), Apply(m, Apply(m, s, a), b);
    assert Run(m, s, [a, b, c]) == Run(m, t, [b, c]);
    assert Run(m, t, [b, c]) == Run(m, u, [c]);
    assert Run(m, u, [c]) == Run(m, Apply(m, u, c), []);
  }
}
