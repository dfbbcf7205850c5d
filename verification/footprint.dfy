/** What a pass may touch: well-made objects of its own namespace and nothing else. */
module Footprint {
  import opened Prelude
  import opened ExamApi
  import opened Policy
  import opened Objects
  import opened Store
  import opened Oracle
  import opened Pass
  import Decimal

  function SlugOf(n: Name): string {
    match n
    case Plain(text) => text
    case PolicyName(_, slug) => slug
  }

  /** The object has the labels and the body that the provisioner gives to an object of that key
      from that template. */
  ghost predicate WellMade(x: Ref, template: Template, k: Key, o: Object) {
    var student := LabelValue(o.labels, LabelStudent);
    var slug := SlugOf(k.name);
    match k.kind
    case NamespaceKind => k.namespace == "" && o == NamespaceObject(x)
    case DeploymentKind =>
      && k.name.Plain? && slug != "" && o.labels == Labels(x, student, slug)
      && o.body.DeploymentBody? && Template(o.body.image, o.body.resources, o.body.port) == template
      && o.body.selector == map[LabelSlug := slug] && o.body.podLabels == o.labels
    case ServiceKind =>
      && k.name.Plain? && o.labels == Labels(x, student, slug)
      && o.body.ServiceBody? && o.body.servicePort == template.port && o.body.target == map[LabelSlug := slug]
    case IngressKind =>
      && k.name.Plain? && o.labels == Labels(x, student, slug)
      && o.body.IngressBody? && o.body.backend == slug && o.body.backendPort == template.port
    case PolicyKind =>
      && k.name.PolicyName?
      && WellMadePolicy(x, k.name.part, student, slug, template.port, o)
  }

  ghost predicate WellMadePolicy(x: Ref, part: PolicyPart, student: string, slug: string, port: int, o: Object) {
    var labels := Labels(x, student, slug)[LabelPort := Decimal.Print(port)];
    o == Object(labels, PolicyBody(
      match part
      case DenyAllPart => DenyAllSpec(labels)
      case EgressAllowPart => EgressAllowSpec(labels)
      case IngressAllowPart => IngressAllowSpec(labels)))
  }

  /** Does the object let anyone in? */
  predicate IsAccess(k: Key) {
    k.kind == IngressKind || (k.kind == PolicyKind && k.name.PolicyName? && k.name.part == IngressAllowPart)
  }

  /** From `s` to `t` only local objects changed, and whatever is new is well made; routes and
      ingress-allow policies are new only if `opening`. */
  ghost predicate Changes(x: Ref, ns: string, template: Template, opening: bool, s: Cluster, t: Cluster) {
    && (forall k :: k in t && (k !in s || s[k] != t[k]) ==>
          Local(k, ns) && WellMade(x, template, k, t[k]) && (opening || !IsAccess(k)))
    && (forall k :: k in s && k !in t ==> Local(k, ns))
  }

  lemma ChangesTransitive(x: Ref, ns: string, template: Template, opening: bool, s: Cluster, t: Cluster, u: Cluster)
    requires Changes(x, ns, template, opening, s, t) && Changes(x, ns, template, opening, t, u)
    ensures Changes(x, ns, template, opening, s, u)
  {
    hide WellMade;
    forall k | k in u && (k !in s || s[k] != u[k])
      ensures Local(k, ns) && WellMade(x, template, k, u[k]) && (opening || !IsAccess(k))
    {
      if k in t && t[k] == u[k] {
        assert k !in s || s[k] != t[k];
      }
    }
  }

  // Single objects.

  lemma LabelsStudent(x: Ref, student: string, slug: string)
    ensures LabelValue(Labels(x, student, slug), LabelStudent) == student
    ensures LabelValue(Labels(x, student, slug), LabelSlug) == slug
    ensures Selects(OwnerLabels(x), Labels(x, student, slug))
    ensures LabelStudent in Labels(x, student, slug) <==> student != ""
  {
  }

  lemma DeploymentWellMade(x: Ref, spec: Spec, ns: string, student: string, slug: string)
    requires slug != ""
    ensures WellMade(x, spec.template, DeploymentKey(ns, slug), Deployment(x, spec, student, slug))
    ensures WellMade(x, spec.template, ServiceKey(ns, slug), Service(x, spec, student, slug))
  {
    LabelsStudent(x, student, slug);
  }

  lemma RouteWellMade(x: Ref, spec: Spec, ns: string, student: string, slug: string, domain: string, tls: string)
    ensures WellMade(x, spec.template, IngressKey(ns, slug), IngressObject(x, spec, student, slug, domain, tls))
  {
    LabelsStudent(x, student, slug);
  }

  lemma PolicyWellMade(x: Ref, spec: Spec, ns: string, part: PolicyPart, student: string, slug: string)
    ensures WellMade(x, spec.template, PolicyKey(ns, part, slug), PolicyObject(x, spec, part, student, slug))
  {
    hide DenyAllSpec, EgressAllowSpec, IngressAllowSpec;
    var o := PolicyObject(x, spec, part, student, slug);
    LabelsStudent(x, student, slug);
    assert LabelValue(o.labels, LabelStudent) == student;
    var k := PolicyKey(ns, part, slug);
    assert WellMadePolicy(x, k.name.part, LabelValue(o.labels, LabelStudent), SlugOf(k.name), spec.template.port, o);
  }

  /** Every object a pass makes leads back to exactly the exam it was made for. */
  lemma WellMadeMapsBack(x: Ref, template: Template, k: Key, o: Object)
    requires WellMade(x, template, k, o)
    ensures RequestsForOwnedObject(o.labels) == if x.name == "" || x.namespace == "" then [] else [x]
    ensures Selects(OwnerLabels(x), o.labels)
    ensures k.kind != NamespaceKind ==> LabelValue(o.labels, LabelSlug) == SlugOf(k.name)
  {
    LabelsStudent(x, LabelValue(o.labels, LabelStudent), SlugOf(k.name));
  }

  lemma CreateChanges(x: Ref, ns: string, template: Template, opening: bool, s: Cluster, k: Key, o: Object, f: Fault)
    requires Local(k, ns) && WellMade(x, template, k, o) && (opening || !IsAccess(k))
    ensures Changes(x, ns, template, opening, s, Create(s, k, o, f).store)
  {
    hide WellMade;
  }

  // Lists of calls.

  lemma {:induction false} CreateAllChanges(x: Ref, ns: string, template: Template, s: Cluster, todo: seq<Creation>, env: Env)
    requires forall i :: 0 <= i < |todo| ==>
               Local(todo[i].key, ns) && WellMade(x, template, todo[i].key, todo[i].value) && !IsAccess(todo[i].key)
    ensures Changes(x, ns, template, false, s, CreateAll(s, todo, env).store)
    decreases |todo|
  {
    hide WellMade;
    if todo != [] {
      var first := Create(s, todo[0].key, todo[0].value, env.fault(todo[0].site));
      CreateChanges(x, ns, template, false, s, todo[0].key, todo[0].value, env.fault(todo[0].site));
      if !first.err {
        CreateAllChanges(x, ns, template, first.store, todo[1..], env);
        ChangesTransitive(x, ns, template, false, s, first.store, CreateAll(first.store, todo[1..], env).store);
      }
    }
  }

  lemma InstanceChanges(j: Job, s: Cluster, who: Who, student: string, slug: string)
    requires slug != ""
    ensures Changes(j.x, j.ns, j.spec.template, false, s, ProvisionInstance(j, s, who, student, slug).store)
  {
    hide WellMade, Deployment, Service, PolicyObject;
    var todo := InstanceObjects(j, who, student, slug);
    DeploymentWellMade(j.x, j.spec, j.ns, student, slug);
    PolicyWellMade(j.x, j.spec, j.ns, DenyAllPart, student, slug);
    PolicyWellMade(j.x, j.spec, j.ns, EgressAllowPart, student, slug);
    CreateAllChanges(j.x, j.ns, j.spec.template, s, todo, j.env);
  }

  lemma {:induction false} PurgeChanges(x: Ref, ns: string, template: Template, s: Cluster, seen: Cluster, items: seq<Key>, valid: set<string>, env: Env)
    requires forall i :: 0 <= i < |items| ==> Local(items[i], ns)
    ensures Changes(x, ns, template, false, s, Purge(s, seen, items, valid, env).store)
    decreases |items|
  {
    hide WellMade, Orphan;
    if items != [] {
      var first := Delete(s, items[0], env.fault(CleanupDelete(items[0])));
      PurgeChanges(x, ns, template, first.store, seen, items[1..], valid, env);
      PurgeChanges(x, ns, template, s, seen, items[1..], valid, env);
      ChangesTransitive(x, ns, template, false, s, first.store, Purge(first.store, seen, items[1..], valid, env).store);
    }
  }

  lemma {:induction false} DeleteEachChanges(x: Ref, ns: string, template: Template, s: Cluster, items: seq<Key>, env: Env)
    requires forall i :: 0 <= i < |items| ==> Local(items[i], ns)
    ensures Changes(x, ns, template, false, s, DeleteEach(s, items, env).store)
    decreases |items|
  {
    hide WellMade;
    if items != [] {
      var first := Delete(s, items[0], env.fault(IngressDelete(items[0])));
      DeleteEachChanges(x, ns, template, first.store, items[1..], env);
      ChangesTransitive(x, ns, template, false, s, first.store, DeleteEach(first.store, items[1..], env).store);
    }
  }

  lemma ListingLocal(j: Job, s: Cluster, kind: Kind, site: Site)
    requires j.env.Valid()
    ensures var items := j.env.order(site, Owned(j, s, kind));
            forall i :: 0 <= i < |items| ==> items[i] in Owned(j, s, kind) && Local(items[i], j.ns)
  {
    var items := j.env.order(site, Owned(j, s, kind));
    assert Enumerates(items, Owned(j, s, kind));
    forall i | 0 <= i < |items| ensures items[i] in Owned(j, s, kind) {
      assert items[i] in items;
    }
  }

  lemma CleanupKindChanges(j: Job, s: Cluster, valid: set<string>, kind: Kind)
    requires j.env.Valid()
    ensures Changes(j.x, j.ns, j.spec.template, false, s, CleanupKind(j, s, valid, kind).store)
  {
    hide WellMade, Purge;
    ListingLocal(j, s, kind, CleanupList(kind));
    if !ListFails(j.env, CleanupList(kind)) {
      PurgeChanges(j.x, j.ns, j.spec.template, s, s, j.env.order(CleanupList(kind), Owned(j, s, kind)), valid, j.env);
    }
  }

  lemma CleanupChanges(j: Job, s: Cluster, valid: set<string>)
    requires j.env.Valid()
    ensures Changes(j.x, j.ns, j.spec.template, false, s, Cleanup(j, s, valid).store)
  {
    hide WellMade, CleanupKind;
    var deployments := CleanupKind(j, s, valid, DeploymentKind);
    CleanupKindChanges(j, s, valid, DeploymentKind);
    if !deployments.err {
      var services := CleanupKind(j, deployments.store, valid, ServiceKind);
      CleanupKindChanges(j, deployments.store, valid, ServiceKind);
      ChangesTransitive(j.x, j.ns, j.spec.template, false, s, deployments.store, services.store);
      if !services.err {
        CleanupKindChanges(j, services.store, valid, PolicyKind);
        ChangesTransitive(j.x, j.ns, j.spec.template, false, s, services.store, CleanupKind(j, services.store, valid, PolicyKind).store);
      }
    }
  }

  lemma PolicyChanges(j: Job, s: Cluster, i: nat, e: Entry, part: PolicyPart, opening: bool)
    requires opening || part != IngressAllowPart
    ensures Changes(j.x, j.ns, j.spec.template, opening, s, CreatePolicy(j, s, i, e, part))
  {
    hide WellMade, PolicyObject;
    PolicyWellMade(j.x, j.spec, j.ns, part, e.student, e.slug);
    CreateChanges(j.x, j.ns, j.spec.template, opening, s, PolicyKey(j.ns, part, e.slug),
      PolicyObject(j.x, j.spec, part, e.student, e.slug), j.env.fault(Make(EntryAt(i), OfPolicy(part))));
  }

  lemma EnforceEntryChanges(j: Job, s: Cluster, i: nat, e: Entry, unlocked: bool)
    ensures Changes(j.x, j.ns, j.spec.template, unlocked, s, EnforceEntry(j, s, i, e, unlocked))
  {
    hide WellMade, CreatePolicy, IngressObject;
    var denied := CreatePolicy(j, s, i, e, DenyAllPart);
    var closed := CreatePolicy(j, denied, i, e, EgressAllowPart);
    PolicyChanges(j, s, i, e, DenyAllPart, unlocked);
    PolicyChanges(j, denied, i, e, EgressAllowPart, unlocked);
    ChangesTransitive(j.x, j.ns, j.spec.template, unlocked, s, denied, closed);
    if unlocked {
      var o := IngressObject(j.x, j.spec, e.student, e.slug, j.platform.domain, j.platform.tlsSecret);
      var f := j.env.fault(Make(EntryAt(i), Route));
      var routed := Create(closed, IngressKey(j.ns, e.slug), o, f).store;
      RouteWellMade(j.x, j.spec, j.ns, e.student, e.slug, j.platform.domain, j.platform.tlsSecret);
      CreateChanges(j.x, j.ns, j.spec.template, true, closed, IngressKey(j.ns, e.slug), o, f);
      PolicyChanges(j, routed, i, e, IngressAllowPart, true);
      ChangesTransitive(j.x, j.ns, j.spec.template, true, closed, routed, CreatePolicy(j, routed, i, e, IngressAllowPart));
    }
    ChangesTransitive(j.x, j.ns, j.spec.template, unlocked, s, closed, EnforceEntry(j, s, i, e, unlocked));
  }

  lemma {:induction false} EnforceChanges(j: Job, s: Cluster, entries: seq<Entry>, i: nat, unlocked: bool)
    requires i <= |entries|
    ensures Changes(j.x, j.ns, j.spec.template, unlocked, s, EnforceFrom(j, s, entries, i, unlocked))
    decreases |entries| - i
  {
    hide WellMade, EnforceEntry;
    if i < |entries| {
      var t := EnforceEntry(j, s, i, entries[i], unlocked);
      EnforceEntryChanges(j, s, i, entries[i], unlocked);
      EnforceChanges(j, t, entries, i + 1, unlocked);
      ChangesTransitive(j.x, j.ns, j.spec.template, unlocked, s, t, EnforceFrom(j, t, entries, i + 1, unlocked));
    }
  }
}
