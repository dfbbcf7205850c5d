/** What traffic the policies of a pass let through, under Kubernetes' meaning of policies. */
module Reachability {
  import opened ExamApi
  import opened Policy
  import opened Objects
  import opened Store
  import opened Oracle
  import opened Pass
  import opened System
  import opened Identity
  import opened Footprint
  import opened Tidiness
  import opened Access
  import Decimal

  ghost function PoliciesIn(s: Cluster, ns: string): set<PolicySpec> {
    set k | k in s && k.kind == PolicyKind && k.namespace == ns && s[k].body.PolicyBody? :: s[k].body.spec
  }

  predicate IsInt32(n: int) {
    -0x8000_0000 <= n < 0x8000_0000
  }

  /** What the three policies of a slug amount to. */
  function PartSpec(part: PolicyPart, slug: string, port: int): PolicySpec {
    var selector := map[LabelSlug := slug];
    match part
    case DenyAllPart => PolicySpec(selector, {Ingress, Egress}, [], [])
    case EgressAllowPart => PolicySpec(selector, {Egress}, [], [Rule([DNSPeer], [Port(53, UDP), Port(53, TCP)])])
    case IngressAllowPart => PolicySpec(selector, {Ingress}, [Rule([NginxPeer], [Port(port, TCP)])], [])
  }

  lemma WellMadeMeans(x: Ref, template: Template, k: Key, o: Object)
    requires k.kind == PolicyKind && WellMade(x, template, k, o)
    requires k.name.part == IngressAllowPart ==> IsInt32(template.port)
    ensures o.body.PolicyBody? && o.body.spec == PartSpec(k.name.part, k.name.slug, template.port)
  {
    var port := template.port;
    var student := LabelValue(o.labels, LabelStudent);
    LabelsStudent(x, student, k.name.slug);
    var labels := Labels(x, student, k.name.slug)[LabelPort := Decimal.Print(port)];
    assert SlugFromLabels(labels) == k.name.slug;
    Decimal.ReadOfPrint(port);
    assert PortFromLabels(labels) == Decimal.Print(port);
    if k.name.part == IngressAllowPart {
      Decimal.PrintReadRoundTrip(port);
    }
  }

  // An enforcement whose calls are not refused leaves exactly the policies it means to leave.

  ghost predicate NothingRefused(env: Env) {
    forall site :: env.fault(site) != Refused
  }

  lemma EntryEstablishes(j: Job, s: Cluster, i: nat, e: Entry, unlocked: bool)
    requires NothingRefused(j.env)
    ensures var t := EnforceEntry(j, s, i, e, unlocked);
            && PolicyKey(j.ns, DenyAllPart, e.slug) in t
            && PolicyKey(j.ns, EgressAllowPart, e.slug) in t
            && (unlocked ==> IngressKey(j.ns, e.slug) in t && PolicyKey(j.ns, IngressAllowPart, e.slug) in t)
            && (!unlocked ==> PolicyKey(j.ns, IngressAllowPart, e.slug) !in t)
            && forall k :: k in s && (unlocked || !IsAccess(k)) ==> k in t
  {
    hide PolicyObject, IngressObject;
  }

  lemma {:induction false} EnforceEstablishes(j: Job, s: Cluster, entries: seq<Entry>, i: nat, unlocked: bool)
    requires i <= |entries| && NothingRefused(j.env)
    ensures var t := EnforceFrom(j, s, entries, i, unlocked);
            && (forall k :: k in s && (unlocked || !IsAccess(k)) ==> k in t)
            && forall k :: i <= k < |entries| ==>
                 && PolicyKey(j.ns, DenyAllPart, entries[k].slug) in t
                 && PolicyKey(j.ns, EgressAllowPart, entries[k].slug) in t
                 && (unlocked ==> IngressKey(j.ns, entries[k].slug) in t
                                  && PolicyKey(j.ns, IngressAllowPart, entries[k].slug) in t)
    decreases |entries| - i
  {
    hide EnforceEntry;
    if i < |entries| {
      EntryEstablishes(j, s, i, entries[i], unlocked);
      EnforceEstablishes(j, EnforceEntry(j, s, i, entries[i], unlocked), entries, i + 1, unlocked);
    }
  }

  // Reading off the traffic.

  /** Where every policy is one of the three of its slug, only the slug's own policies matter. */
  ghost predicate Canonical(ns: string, port: int, s: Cluster) {
    forall k :: k in s && k.namespace == ns && k.kind == PolicyKind ==>
      k.name.PolicyName? && s[k].body.PolicyBody? && s[k].body.spec == PartSpec(k.name.part, k.name.slug, port)
  }

  lemma GovernedBySlug(p: PolicySpec, part: PolicyPart, slug: string, port: int, labels: LabelSet, d: Direction)
    requires p == PartSpec(part, slug, port)
    ensures Governs(p, d, labels) <==>
              LabelSlug in labels && labels[LabelSlug] == slug
              && (match part case DenyAllPart => true case EgressAllowPart => d == Egress case IngressAllowPart => d == Ingress)
  {
  }

  predicate PartLets(part: PolicyPart, number: int, d: Direction, other: Pod, port: Port) {
    match part
    case DenyAllPart => false
    case EgressAllowPart => d == Egress && PeerMatches(DNSPeer, other) && port in {Port(53, UDP), Port(53, TCP)}
    case IngressAllowPart => d == Ingress && PeerMatches(NginxPeer, other) && port == Port(number, TCP)
  }

  lemma OneRule(p: PolicySpec, d: Direction, peer: Peer, ports: seq<Port>, other: Pod, port: Port)
    requires ports != []
    requires RulesOf(p, d) == [Rule([peer], ports)]
    ensures Permits(p, d, other, port) <==> PeerMatches(peer, other) && port in ports
  {
    hide PeerMatches;
    var rule := Rule([peer], ports);
    assert PeerMatches(rule.peers[0], other) <==> PeerMatches(peer, other);
    assert RuleAllows(rule, other, port) <==> PeerMatches(peer, other) && port in ports;
    var rules := RulesOf(p, d);
    assert |rules| == 1 && rules[0] == rule;
  }

  lemma PartPermits(part: PolicyPart, slug: string, number: int, d: Direction, other: Pod, port: Port)
    ensures Permits(PartSpec(part, slug, number), d, other, port) <==> PartLets(part, number, d, other, port)
  {
    hide PeerMatches, RuleAllows;
    var p := PartSpec(part, slug, number);
    if part == EgressAllowPart && d == Egress {
      OneRule(p, d, DNSPeer, [Port(53, UDP), Port(53, TCP)], other, port);
    } else if part == IngressAllowPart && d == Ingress {
      OneRule(p, d, NginxPeer, [Port(number, TCP)], other, port);
    }
  }

  lemma TrafficOfSlug(ns: string, number: int, s: Cluster, labels: LabelSet, slug: string, unlocked: bool,
                      d: Direction, other: Pod, port: Port)
    requires Canonical(ns, number, s)
    requires LabelSlug in labels && labels[LabelSlug] == slug
    requires PolicyKey(ns, DenyAllPart, slug) in s && PolicyKey(ns, EgressAllowPart, slug) in s
    requires PolicyKey(ns, IngressAllowPart, slug) in s <==> unlocked
    ensures Allowed(PoliciesIn(s, ns), labels, d, other, port) <==>
              if d == Ingress then unlocked && PeerMatches(NginxPeer, other) && port == Port(number, TCP)
              else PeerMatches(DNSPeer, other) && port in {Port(53, UDP), Port(53, TCP)}
  {
    hide Permits, Governs, PeerMatches, PartSpec;
    var ps := PoliciesIn(s, ns);
    forall p | p in ps && Governs(p, d, labels)
      ensures exists part :: p == PartSpec(part, slug, number) && PolicyKey(ns, part, slug) in s
    {
      var k :| k in s && k.kind == PolicyKind && k.namespace == ns && s[k].body.PolicyBody? && s[k].body.spec == p;
      GovernedBySlug(p, k.name.part, k.name.slug, number, labels, d);
      assert k == PolicyKey(ns, k.name.part, slug);
    }
    forall part ensures PolicyKey(ns, part, slug) in s ==> PartSpec(part, slug, number) in ps {
    }
    var deny := PartSpec(DenyAllPart, slug, number);
    GovernedBySlug(deny, DenyAllPart, slug, number, labels, d);
    forall part ensures
      PartLets(part, number, d, other, port) == Permits(PartSpec(part, slug, number), d, other, port)
    {
      PartPermits(part, slug, number, d, other, port);
    }
    GovernedBySlug(PartSpec(EgressAllowPart, slug, number), EgressAllowPart, slug, number, labels, d);
    GovernedBySlug(PartSpec(IngressAllowPart, slug, number), IngressAllowPart, slug, number, labels, d);
    assert deny in ps;
    assert PartSpec(EgressAllowPart, slug, number) in ps;
    assert unlocked ==> PartSpec(IngressAllowPart, slug, number) in ps;
  }

  lemma CanonicalFromTidy(x: Ref, ns: string, template: Template, s: Cluster)
    requires Tidy(x, ns, s) && IsInt32(template.port)
    requires forall k :: k in s && k.namespace == ns && IsAccess(k) ==> WellMade(x, template, k, s[k])
    ensures Canonical(ns, template.port, s)
  {
    hide WellMade, PartSpec;
    forall k | k in s && k.namespace == ns && k.kind == PolicyKind
      ensures k.name.PolicyName? && s[k].body.PolicyBody? && s[k].body.spec == PartSpec(k.name.part, k.name.slug, template.port)
    {
      assert Made(x, k, s[k]);
      var made :| WellMade(x, made, k, s[k]);
      assert k.name.PolicyName? by { PolicyNamed(x, made, k, s[k]); }
      var p := if k.name.part == IngressAllowPart then template else made;
      WellMadeMeans(x, p, k, s[k]);
      PortOnlyInIngress(k.name.part, k.name.slug, p.port, template.port);
    }
  }

  lemma PolicyNamed(x: Ref, template: Template, k: Key, o: Object)
    requires k.kind == PolicyKind && WellMade(x, template, k, o)
    ensures k.name.PolicyName?
  {
  }

  lemma PortOnlyInIngress(part: PolicyPart, slug: string, p: int, q: int)
    requires part == IngressAllowPart ==> p == q
    ensures PartSpec(part, slug, p) == PartSpec(part, slug, q)
  {
  }

  predicate IsIngressController(pod: Pod) {
    LabelValue(pod.namespaceLabels, NamespaceName) == "ingress-nginx" && LabelValue(pod.labels, AppName) == "ingress-nginx"
  }

  predicate IsClusterDNS(pod: Pod) {
    LabelValue(pod.namespaceLabels, NamespaceName) == "kube-system" && LabelValue(pod.labels, DNSApp) == "kube-dns"
  }

  lemma PeersAre(pod: Pod)
    ensures PeerMatches(NginxPeer, pod) <==> IsIngressController(pod)
    ensures PeerMatches(DNSPeer, pod) <==> IsClusterDNS(pod)
  {
    assert NamespaceName in NginxPeer.namespaceSelector && AppName in NginxPeer.podSelector;
    assert NamespaceName in DNSPeer.namespaceSelector && DNSApp in DNSPeer.podSelector;
  }

  /** After an enforcement in a reachable state with no call refused, the pod of a recorded slug takes
      in traffic exactly when the exam is open, from the ingress controller, on the template's TCP
      port; and it sends only to cluster DNS. The policies of the other slugs play no part. */
  lemma EnforcementDecidesTraffic(m: Machine, s: State, env: Env, unlocked: bool, e: nat, student: string,
                                  d: Direction, other: Pod, port: Port)
    requires Gated(m, s) && Tidy(m.x, m.ns, s.c.store) && IsInt32(s.spec.template.port)
    requires NothingRefused(env) && e < |Entries(s.c.status)|
    ensures var slug := Entries(s.c.status)[e].slug;
            var t := EnforcePolicies(JobOf(m, s, env), s.c, unlocked).store;
            Allowed(PoliciesIn(t, m.ns), Labels(m.x, student, slug), d, other, port) <==>
              if d == Ingress then
                unlocked && IsIngressController(other) && port == Port(s.spec.template.port, TCP)
              else IsClusterDNS(other) && port in {Port(53, UDP), Port(53, TCP)}
  {
    PeersAre(other);
    hide IsIngressController, IsClusterDNS;
    hide EnforceFrom, Entries, WellMade, Labels, PeerMatches, Made, LinedUp;
    var j := JobOf(m, s, env);
    var entries := Entries(s.c.status);
    var t := EnforceFrom(j, s.c.store, entries, 0, unlocked);
    EnforceEstablishes(j, s.c.store, entries, 0, unlocked);
    if !unlocked {
      ClosingRemovesAllows(j, s.c.store, entries, 0, e);
    }
    EnforceChanges(j, s.c.store, entries, 0, unlocked);
    ChangesTidy(m.x, m.ns, s.spec.template, unlocked, s.c.store, t);
    CanonicalFromTidy(m.x, m.ns, s.spec.template, t);
    LabelsStudent(m.x, student, entries[e].slug);
    assert LabelSlug in Labels(m.x, student, entries[e].slug)
        && Labels(m.x, student, entries[e].slug)[LabelSlug] == entries[e].slug by { hide *; SlugLabel(m.x, student, entries[e].slug); }
    TrafficOfSlug(m.ns, s.spec.template.port, t, Labels(m.x, student, entries[e].slug), entries[e].slug, unlocked,
      d, other, port);
  }

  lemma SlugLabel(x: Ref, student: string, slug: string)
    ensures LabelSlug in Labels(x, student, slug) && Labels(x, student, slug)[LabelSlug] == slug
  {
  }
}
