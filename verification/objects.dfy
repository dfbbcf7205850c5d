/** Cluster objects of an exam: their names, labels and bodies, as the provisioner builds them. */
module Objects {
  import opened Prelude
  import opened ExamApi
  import opened Policy
  import Decimal

  /** The Exam resource an object belongs to. */
  datatype Ref = Ref(name: string, namespace: string)

  datatype PolicyPart = DenyAllPart | EgressAllowPart | IngressAllowPart

  /** An object name; `Render` gives the string the API server sees. */
  datatype Name = Plain(text: string) | PolicyName(part: PolicyPart, slug: string)

  function Suffix(part: PolicyPart): string {
    match part
    case DenyAllPart => "-deny-all"
    case EgressAllowPart => "-egress-allow"
    case IngressAllowPart => "-ingress-allow"
  }

  function Render(n: Name): string {
    match n
    case Plain(text) => text
    case PolicyName(part, slug) => slug + Suffix(part)
  }

  /** The characters from which a policy's part can be read off the end of its name. */
  function Marks(part: PolicyPart): (char, char) {
    match part
    case DenyAllPart => ('l', 'l')
    case EgressAllowPart => ('w', 'e')
    case IngressAllowPart => ('w', 'n')
  }

  lemma NameEnding(part: PolicyPart, slug: string)
    ensures var n := Render(PolicyName(part, slug));
            |n| == |slug| + |Suffix(part)|
            && n[..|slug|] == slug
            && n[|n| - 1] == Marks(part).0
            && (part != DenyAllPart ==> |n| >= 12 && n[|n| - 12] == Marks(part).1)
  {
    var n := Render(PolicyName(part, slug));
    assert n[|n| - 1] == Suffix(part)[|Suffix(part)| - 1];
    match part
    case DenyAllPart =>
    case EgressAllowPart => assert n[|n| - 12] == Suffix(part)[1];
    case IngressAllowPart => assert n[|n| - 12] == Suffix(part)[2];
  }

  /** Two policies have the same name only if they are the same policy of the same slug. */
  lemma PolicyNamesDistinct(p: PolicyPart, s: string, q: PolicyPart, t: string)
    requires Render(PolicyName(p, s)) == Render(PolicyName(q, t))
    ensures p == q && s == t
  {
    NameEnding(p, s);
    NameEnding(q, t);
  }

  datatype Kind = NamespaceKind | DeploymentKind | ServiceKind | IngressKind | PolicyKind

  datatype Key = Key(kind: Kind, namespace: string, name: Name)

  datatype Body =
    | NamespaceBody
    | DeploymentBody(image: string, resources: string, port: int, selector: LabelSet, podLabels: LabelSet, ready: nat)
    | ServiceBody(target: LabelSet, servicePort: int)
    | IngressBody(host: string, backend: string, backendPort: int, tlsSecret: Option<string>)
    | PolicyBody(spec: PolicySpec)

  datatype Object = Object(labels: LabelSet, body: Body)

  function NamespaceKey(ns: string): Key { Key(NamespaceKind, "", Plain(ns)) }
  function DeploymentKey(ns: string, slug: string): Key { Key(DeploymentKind, ns, Plain(slug)) }
  function ServiceKey(ns: string, slug: string): Key { Key(ServiceKind, ns, Plain(slug)) }
  function IngressKey(ns: string, slug: string): Key { Key(IngressKind, ns, Plain(slug)) }
  function PolicyKey(ns: string, part: PolicyPart, slug: string): Key { Key(PolicyKind, ns, PolicyName(part, slug)) }

  function OwnerLabels(x: Ref): LabelSet {
    map[LabelExam := x.name, LabelExamNamespace := x.namespace]
  }

  /** A spare has no student label. */
  function Labels(x: Ref, student: string, slug: string): LabelSet {
    var l := OwnerLabels(x)[LabelSlug := slug];
    if student != "" then l[LabelStudent := student] else l
  }

  function PolicyLabels(x: Ref, spec: Spec, student: string, slug: string): LabelSet {
    Labels(x, student, slug)[LabelPort := Decimal.Print(spec.template.port)]
  }

  function StudentSelector(x: Ref, student: string): LabelSet {
    OwnerLabels(x)[LabelStudent := student]
  }

  function Deployment(x: Ref, spec: Spec, student: string, slug: string): Object {
    var labels := Labels(x, student, slug);
    Object(labels, DeploymentBody(spec.template.image, spec.template.resources, spec.template.port,
                                  map[LabelSlug := slug], labels, 0))
  }

  function Service(x: Ref, spec: Spec, student: string, slug: string): Object {
    Object(Labels(x, student, slug), ServiceBody(map[LabelSlug := slug], spec.template.port))
  }

  function IngressObject(x: Ref, spec: Spec, student: string, slug: string, domain: string, tls: string): Object {
    Object(Labels(x, student, slug),
           IngressBody(slug + "." + domain, slug, spec.template.port, if tls != "" then Some(tls) else None))
  }

  function PolicyObject(x: Ref, spec: Spec, part: PolicyPart, student: string, slug: string): Object {
    var labels := PolicyLabels(x, spec, student, slug);
    Object(labels, PolicyBody(
      match part
      case DenyAllPart => DenyAllSpec(labels)
      case EgressAllowPart => EgressAllowSpec(labels)
      case IngressAllowPart => IngressAllowSpec(labels)))
  }

  function NamespaceObject(x: Ref): Object {
    Object(OwnerLabels(x), NamespaceBody)
  }

  /** The exams to reconcile when an object changes: the one its labels name, if they name one. */
  function RequestsForOwnedObject(labels: LabelSet): seq<Ref> {
    var name := LabelValue(labels, LabelExam);
    var namespace := LabelValue(labels, LabelExamNamespace);
    if name == "" || namespace == "" then [] else [Ref(name, namespace)]
  }
}
