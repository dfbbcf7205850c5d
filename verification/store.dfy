/** A strongly consistent object store in which any single call may fail. */
module Store {
  import opened Policy
  import opened Objects

  type Cluster = map<Key, Object>

  /** A call goes through, is refused without effect, or takes effect while its reply is lost. */
  datatype Fault = NoFault | Refused | ReplyLost

  /** `err` is what remains after AlreadyExists and NotFound have been ignored. */
  datatype Reply = Reply(store: Cluster, err: bool)

  function Create(s: Cluster, k: Key, o: Object, f: Fault): Reply {
    Reply(if f == Refused || k in s then s else s[k := o], f != NoFault)
  }

  function Delete(s: Cluster, k: Key, f: Fault): Reply {
    Reply(if f == Refused then s else s - {k}, f != NoFault)
  }

  /** Deleting a namespace removes everything in it. */
  function DeleteNamespace(s: Cluster, ns: string, f: Fault): Reply {
    Reply(
      if f == Refused then s
      else map k | k in s && k.namespace != ns && k != NamespaceKey(ns) :: s[k],
      f != NoFault)
  }

  function Selected(s: Cluster, kind: Kind, ns: string, selector: LabelSet): set<Key> {
    set k | k in s && k.kind == kind && k.namespace == ns && Selects(selector, s[k].labels)
  }

  /** Everything an exam living in namespace `ns` can own. */
  predicate Local(k: Key, ns: string) {
    k.namespace == ns || k == NamespaceKey(ns)
  }
}
