/** Labels, NetworkPolicy values and what a set of policies lets a pod receive and send. */
module Policy {
  import Decimal

  /** Label keys, one constructor for each constant key the program uses. */
  datatype LabelKey =
    | LabelExam
    | LabelExamNamespace
    | LabelSlug
    | LabelStudent
    | LabelPort
    | NamespaceName   // kubernetes.io/metadata.name
    | DNSApp          // k8s-app
    | AppName         // app.kubernetes.io/name
    | OtherLabel(key: string)

  type LabelSet = map<LabelKey, string>

  predicate Selects(selector: LabelSet, labels: LabelSet) {
    forall k :: k in selector ==> k in labels && labels[k] == selector[k]
  }

  function LabelValue(labels: LabelSet, k: LabelKey): string {
    if k in labels then labels[k] else ""
  }

  datatype Direction = Ingress | Egress
  datatype Protocol = TCP | UDP
  datatype Peer = Peer(namespaceSelector: LabelSet, podSelector: LabelSet)
  datatype Port = Port(number: int, protocol: Protocol)
  datatype Rule = Rule(peers: seq<Peer>, ports: seq<Port>)
  datatype PolicySpec = PolicySpec(
    podSelector: LabelSet,
    types: set<Direction>,
    ingress: seq<Rule>,
    egress: seq<Rule>)

  // The three policies of one instance.

  function SlugFromLabels(labels: LabelSet): string {
    LabelValue(labels, LabelSlug)
  }

  function PortFromLabels(labels: LabelSet): string {
    var p := LabelValue(labels, LabelPort);
    if p != "" then p else "8080"
  }

  function DenyAllSpec(labels: LabelSet): PolicySpec {
    PolicySpec(map[LabelSlug := SlugFromLabels(labels)], {Ingress, Egress}, [], [])
  }

  const DNSPeer := Peer(map[NamespaceName := "kube-system"], map[DNSApp := "kube-dns"])

  function EgressAllowSpec(labels: LabelSet): PolicySpec {
    PolicySpec(map[LabelSlug := SlugFromLabels(labels)], {Egress}, [],
               [Rule([DNSPeer], [Port(53, UDP), Port(53, TCP)])])
  }

  const NginxPeer := Peer(map[NamespaceName := "ingress-nginx"], map[AppName := "ingress-nginx"])

  function IngressAllowSpec(labels: LabelSet): PolicySpec {
    var port := Decimal.ToInt32(Decimal.Read(PortFromLabels(labels)));
    PolicySpec(map[LabelSlug := SlugFromLabels(labels)], {Ingress},
               [Rule([NginxPeer], [Port(port, TCP)])], [])
  }

  // Kubernetes' meaning of a set of policies: policies only add what may pass, and a pod that no
  // policy of a direction selects is open in that direction.

  /** A pod together with the labels of the namespace it runs in. */
  datatype Pod = Pod(namespaceLabels: LabelSet, labels: LabelSet)

  predicate PeerMatches(peer: Peer, pod: Pod) {
    Selects(peer.namespaceSelector, pod.namespaceLabels) && Selects(peer.podSelector, pod.labels)
  }

  predicate RuleAllows(rule: Rule, other: Pod, port: Port) {
    (rule.peers == [] || exists i :: 0 <= i < |rule.peers| && PeerMatches(rule.peers[i], other))
    && (rule.ports == [] || port in rule.ports)
  }

  predicate Governs(p: PolicySpec, direction: Direction, labels: LabelSet) {
    direction in p.types && Selects(p.podSelector, labels)
  }

  function RulesOf(p: PolicySpec, direction: Direction): seq<Rule> {
    if direction == Ingress then p.ingress else p.egress
  }

  predicate Permits(p: PolicySpec, direction: Direction, other: Pod, port: Port) {
    exists i :: 0 <= i < |RulesOf(p, direction)| && RuleAllows(RulesOf(p, direction)[i], other, port)
  }

  /** May traffic pass between the pod labelled `labels` and `other`, in that direction? */
  ghost predicate Allowed(policies: set<PolicySpec>, labels: LabelSet, direction: Direction, other: Pod, port: Port) {
    (forall p :: p in policies ==> !Governs(p, direction, labels))
    || exists p :: p in policies && Governs(p, direction, labels) && Permits(p, direction, other, port)
  }
}
