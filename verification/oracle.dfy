/** What one pass cannot control: the outcome of each call it makes, told in advance. */
module Oracle {
  import opened Prelude
  import opened Objects
  import opened Store

  /** On whose behalf a call is made: a spec entry, or an entry of the recorded status. */
  datatype Who = StudentAt(i: nat) | SpareAt(i: nat) | EntryAt(i: nat)

  datatype Part = Workload | Endpoint | Route | OfPolicy(part: PolicyPart)

  /** Every API call of one pass has its own site, so any combination of failures can be told. */
  datatype Site =
    | NamespaceCreate
    | NamespaceDelete
    | SecretCopy
    | Lookup(who: Who)
    | Make(who: Who, part: Part)
    | Unmake(who: Who)
    | CleanupList(kind: Kind)
    | CleanupDelete(key: Key)
    | GateList
    | IngressList
    | IngressDelete(key: Key)

  datatype Letter = SparesLetter | StudentLetter(i: nat) | UnlockLetter | LockLetter

  datatype Check = Check(passed: nat, failed: nat, policyEnforced: bool)

  datatype Env = Env(
    fault: Site -> Fault,
    order: (Site, set<Key>) -> seq<Key>,
    slug: Who -> Option<string>,
    undelivered: Letter -> bool,
    check: Check)
  {
    /** Lists are complete and without repetition, and a generated slug is not empty. */
    ghost predicate Valid() {
      && (forall site, keys :: Enumerates(order(site, keys), keys))
      && (forall who :: slug(who).Some? ==> slug(who).value != "")
    }

    /** No call fails. */
    ghost predicate Calm() {
      && (forall site :: fault(site) == NoFault)
      && (forall letter :: !undelivered(letter))
      && (forall who :: slug(who).Some?)
    }
  }

  /** A different slug for every purpose, and others for another salt. */
  function SlugFor(salt: string, who: Who): string {
    match who
    case StudentAt(i) => salt + "a" + seq(i, _ => 'x')
    case SpareAt(i) => salt + "b" + seq(i, _ => 'x')
    case EntryAt(i) => salt + "c" + seq(i, _ => 'x')
  }

  /** A pass in which nothing fails. */
  ghost function Unhindered(salt: string): (env: Env)
    ensures env.Valid() && env.Calm()
  {
    Env(site => NoFault, (site, keys) => Listing(keys), who => Some(SlugFor(salt, who)), letter => false, Check(0, 0, true))
  }

  lemma SlugsDiffer(salt: string, a: Who, b: Who)
    requires SlugFor(salt, a) == SlugFor(salt, b)
    ensures a == b
  {
    var n := |salt|;
    assert SlugFor(salt, a)[n] == SlugFor(salt, b)[n] && |SlugFor(salt, a)| == |SlugFor(salt, b)|;
  }
}
