/** Every object in the exam's namespace is one that the provisioner could have made, in every run. */
module Tidiness {
  import opened ExamApi
  import opened Webhook
  import opened Objects
  import opened Store
  import opened Pass
  import opened System
  import opened Alignment
  import opened Identity
  import opened Footprint
  import opened Interference

  /** Made by the provisioner, from the present template or from an earlier one. */
  ghost predicate Made(x: Ref, k: Key, o: Object) {
    exists template :: WellMade(x, template, k, o)
  }

  ghost predicate Tidy(x: Ref, ns: string, s: Cluster) {
    forall k :: k in s && k.namespace == ns ==> Made(x, k, s[k])
  }

  lemma ChangesTidy(x: Ref, ns: string, template: Template, opening: bool, s: Cluster, t: Cluster)
    requires Tidy(x, ns, s) && Changes(x, ns, template, opening, s, t)
    ensures Tidy(x, ns, t)
  {
    hide WellMade;
    forall k | k in t && k.namespace == ns ensures Made(x, k, t[k]) {
      if k in s && s[k] == t[k] {
        assert Made(x, k, s[k]);
      } else {
        assert WellMade(x, template, k, t[k]);
      }
    }
  }

  lemma ReadinessTidy(x: Ref, ns: string, s: Cluster, key: Key, n: nat)
    requires Tidy(x, ns, s)
    ensures Tidy(x, ns, SetReady(s, key, n))
  {
    hide Labels, OwnerLabels;
    var t := SetReady(s, key, n);
    forall k | k in t && k.namespace == ns ensures Made(x, k, t[k]) {
      assert Made(x, k, s[k]);
      var template :| WellMade(x, template, k, s[k]);
      assert WellMade(x, template, k, t[k]);
    }
  }

  lemma StepTidy(m: Machine, s: State, step: Step)
    requires LinedUp(m, s) && Enabled(m, s, step) && Tidy(m.x, m.ns, s.c.store)
    ensures Tidy(m.x, m.ns, Apply(m, s, step).c.store)
  {
    hide Reconcile, Made, ValidateUpdate, GoodStudent, GoodSpare, Changes;
    match step
    case Readiness(key, ready) => ReadinessTidy(m.x, m.ns, s.c.store, key, ready);
    case Reconciled(env, saved) =>
      var j := JobOf(m, s, env);
      PassContained(j, s.c);
      ChangesTidy(m.x, m.ns, s.spec.template, Begin(j, s.c).status.phase == Phase.Unlocked,
        s.c.store, Reconcile(j, s.c).c.store);
    case _ =>
  }

  lemma {:induction false} RunTidy(m: Machine, s: State, steps: seq<Step>)
    requires LinedUp(m, s) && Legal(m, s, steps) && Tidy(m.x, m.ns, s.c.store)
    ensures Tidy(m.x, m.ns, Run(m, s, steps).c.store)
    decreases |steps|
  {
    hide Apply, Made, LinedUp;
    if steps != [] {
      StepTidy(m, s, steps[0]);
      StepLinedUp(m, s, steps[0]);
      RunTidy(m, Apply(m, s, steps[0]), steps[1..]);
    }
  }
}
