/** Exams side by side: each lives in the namespace computed from its name. */
module Tenancy {
  import opened Oracle
  import opened System
  import opened Alignment
  import opened Interference
  import opened Names

  predicate Housed(hash: string -> string, m: Machine) {
    m.ns == ExamNamespace(hash, m.x)
  }

  /** Unless kept names and hash suffixes both coincide, a pass over one exam, in any phase and with
      any failures, is to the other exam a step that leaves its namespace and its series alone. */
  lemma ExamsDoNotInterfere(hash: string -> string, m: Machine, s: State, env: Env, saved: bool,
                            other: Machine, t: State)
    requires IsHexHash(hash) && Housed(hash, m) && Housed(hash, other)
    requires HashSuffix(hash, m.x) != HashSuffix(hash, other.x) || Kept(m.x.name) != Kept(other.x.name)
    requires env.Valid() && Aligned(m.platform.domain, s.spec, s.c.status)
    requires t.c.store == s.c.store && t.c.series == s.c.series
    ensures var after := AfterPass(m, s, env, saved);
            Enabled(other, t, Elsewhere(after.c.store, after.c.series))
  {
    hide AfterPass, Enabled, Kept;
    NamespaceSharedIff(hash, m.x, other.x);
    NamespaceParts(hash, m.x);
    NamespaceParts(hash, other.x);
    PassesDoNotInterfere(m, s, env, saved, other, t);
  }

  /** So exams do not interfere if their full names hash apart in the first eight characters, or if they have
      different names of at most 49 characters; exams of one name are told apart by the hash alone. */
  lemma ExamsApart(hash: string -> string, m: Machine, s: State, env: Env, saved: bool, other: Machine, t: State)
    requires IsHexHash(hash) && Housed(hash, m) && Housed(hash, other)
    requires var x, y := m.x, other.x;
             || hash(x.namespace + "/" + x.name)[..8] != hash(y.namespace + "/" + y.name)[..8]
             || (|x.name| <= 49 && |y.name| <= 49 && x.name != y.name)
    requires env.Valid() && Aligned(m.platform.domain, s.spec, s.c.status)
    requires t.c.store == s.c.store && t.c.series == s.c.series
    ensures var after := AfterPass(m, s, env, saved);
            Enabled(other, t, Elsewhere(after.c.store, after.c.series))
  {
    hide AfterPass, Enabled, Kept;
    HashedApart(hash, m.x, other.x);
    NamespaceSharedIff(hash, m.x, other.x);
    ExamsDoNotInterfere(hash, m, s, env, saved, other, t);
  }
}
