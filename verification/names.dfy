/** Generated names: the namespace of an exam and the slug of an instance. */
module Names {
  import opened Prelude
  import opened Objects

  predicate IsLowerAlnum(c: char) {
    'a' <= c <= 'z' || '0' <= c <= '9'
  }

  predicate IsLetter(c: char) {
    'a' <= c <= 'z' || 'A' <= c <= 'Z'
  }

  /** A DNS label as Kubernetes wants it, section 2.1 of RFC 1123, in lower case. */
  predicate IsLabel1123(s: string) {
    && 1 <= |s| <= 63
    && IsLowerAlnum(s[0]) && IsLowerAlnum(s[|s| - 1])
    && forall c :: c in s ==> IsLowerAlnum(c) || c == '-'
  }

  /** A name the API server accepts for an Exam: labels joined by dots, at most 253 characters. */
  predicate IsResourceName(s: string) {
    && 1 <= |s| <= 253
    && IsLowerAlnum(s[0]) && IsLowerAlnum(s[|s| - 1])
    && forall c :: c in s ==> IsLowerAlnum(c) || c == '-' || c == '.'
  }

  /** A label of section 2.3.1 of RFC 1035. */
  predicate IsLabel1035(s: string) {
    && 1 <= |s| <= 63
    && IsLetter(s[0]) && (IsLetter(s[|s| - 1]) || '0' <= s[|s| - 1] <= '9')
    && forall c :: c in s ==> IsLetter(c) || '0' <= c <= '9' || c == '-'
  }

  /** A hash printed in hexadecimal; which hash it is plays no part. */
  ghost predicate IsHexHash(hash: string -> string) {
    forall s :: |hash(s)| >= 8 && forall c :: c in hash(s) ==> '0' <= c <= '9' || 'a' <= c <= 'f'
  }

  const MAX_BASE := 63 - 5 - 8 - 1

  function TrimDashes(s: string): (r: string)
    ensures r <= s
    ensures r != "" ==> r[|r| - 1] != '-'
    ensures forall i :: |r| <= i < |s| ==> s[i] == '-'
  {
    if s != "" && s[|s| - 1] == '-' then TrimDashes(s[..|s| - 1]) else s
  }

  /** The part of the exam's name that the namespace keeps. */
  function Kept(name: string): string {
    if |name| <= MAX_BASE then name
    else
      var base := TrimDashes(name[..MAX_BASE]);
      if base == "" then "instance" else base
  }

  function HashSuffix(hash: string -> string, x: Ref): string {
    var h := hash(x.namespace + "/" + x.name);
    if |h| >= 8 then h[..8] else h
  }

  function ExamNamespace(hash: string -> string, x: Ref): string {
    "exam-" + Kept(x.name) + "-" + HashSuffix(hash, x)
  }

  method ComputeExamNamespace(hash: string -> string, x: Ref) returns (ns: string)
    requires IsHexHash(hash)
    ensures ns == ExamNamespace(hash, x)
    ensures |x.name| <= 49 ==> ns == "exam-" + x.name + "-" + hash(x.namespace + "/" + x.name)[..8]
  {
    var suffix := hash(x.namespace + "/" + x.name)[..8];
    var base := x.name;
    if |base| > MAX_BASE {
      base := base[..MAX_BASE];
      while |base| > 0 && base[|base| - 1] == '-'
        invariant base <= x.name[..MAX_BASE]
        invariant TrimDashes(base) == TrimDashes(x.name[..MAX_BASE])
      {
        base := base[..|base| - 1];
      }
      if base == "" {
        base := "instance";
      }
    }
    ns := "exam-" + base + "-" + suffix;
  }

  lemma KeptShape(name: string)
    requires IsResourceName(name)
    ensures 1 <= |Kept(name)| <= MAX_BASE && IsLowerAlnum(Kept(name)[0])
    ensures Kept(name) <= name && Kept(name)[|Kept(name)| - 1] != '-'
    ensures |name| <= MAX_BASE ==> Kept(name) == name
  {
    if |name| > MAX_BASE {
      var cut := name[..MAX_BASE];
      var base := TrimDashes(cut);
      if base == "" {
        assert cut[0] == '-';
      }
    }
  }

  /** The namespace of any exam the API server admits is a valid label exactly when the kept part of
      its name has no dot; for an exam named by a label that is always so. */
  lemma NamespaceValidIff(hash: string -> string, x: Ref)
    requires IsHexHash(hash) && IsResourceName(x.name)
    ensures |ExamNamespace(hash, x)| <= 63
    ensures IsLabel1123(ExamNamespace(hash, x)) <==> '.' !in Kept(x.name)
    ensures IsLabel1123(x.name) ==> IsLabel1123(ExamNamespace(hash, x))
  {
    KeptShape(x.name);
    var kept, h, ns := Kept(x.name), HashSuffix(hash, x), ExamNamespace(hash, x);
    assert |h| == 8 && forall c :: c in h ==> c in hash(x.namespace + "/" + x.name);
    assert ns[0] == 'e' && ns[|ns| - 1] == h[7];
    assert h[7] in h;
    forall c | c in ns ensures c in "exam-" || c in kept || c == '-' || c in h {
    }
    if '.' in kept {
      assert '.' in ns;
    } else {
      forall c | c in kept ensures IsLowerAlnum(c) || c == '-' {
        assert c in x.name;
      }
    }
  }

  /** Two exams share a namespace exactly when they agree on the kept name and on the hash suffix; with
      unshortened names they then have the same name. */
  lemma NamespaceSharedIff(hash: string -> string, x: Ref, y: Ref)
    requires IsHexHash(hash)
    ensures ExamNamespace(hash, x) == ExamNamespace(hash, y) <==>
              HashSuffix(hash, x) == HashSuffix(hash, y) && Kept(x.name) == Kept(y.name)
    ensures ExamNamespace(hash, x) == ExamNamespace(hash, y) && |x.name| <= MAX_BASE && |y.name| <= MAX_BASE ==>
              x.name == y.name
  {
    NamespaceParts(hash, x);
    NamespaceParts(hash, y);
  }

  lemma NamespaceParts(hash: string -> string, x: Ref)
    requires IsHexHash(hash)
    ensures var ns := ExamNamespace(hash, x);
            |ns| >= 14 && ns[|ns| - 8..] == HashSuffix(hash, x) && ns[5..|ns| - 9] == Kept(x.name)
  {
    hide Kept;
    var ns := ExamNamespace(hash, x);
    assert |HashSuffix(hash, x)| == 8;
    assert ns == ("exam-" + Kept(x.name) + "-") + HashSuffix(hash, x);
  }

  /** The namespace ends in the first eight characters of the hash of the exam's full name, so exams whose
      full names hash apart there live apart; and exams with different short names do in any case. */
  lemma HashedApart(hash: string -> string, x: Ref, y: Ref)
    requires IsHexHash(hash)
    ensures var ns := ExamNamespace(hash, x); |ns| >= 8 && ns[|ns| - 8..] == hash(x.namespace + "/" + x.name)[..8]
    ensures hash(x.namespace + "/" + x.name)[..8] != hash(y.namespace + "/" + y.name)[..8] ==>
              ExamNamespace(hash, x) != ExamNamespace(hash, y)
    ensures |x.name| <= 49 && |y.name| <= 49 && x.name != y.name ==> ExamNamespace(hash, x) != ExamNamespace(hash, y)
  {
    NamespaceParts(hash, x);
    NamespaceParts(hash, y);
  }

  /** Different exams have different full names, as long as no part of a name has a slash in it. */
  lemma FullNamesDiffer(x: Ref, y: Ref)
    requires '/' !in x.namespace && '/' !in y.namespace
    ensures x.namespace + "/" + x.name == y.namespace + "/" + y.name <==> x == y
  {
    var s, t := x.namespace + "/" + x.name, y.namespace + "/" + y.name;
    var n, k := |x.namespace|, |y.namespace|;
    if s == t {
      assert s[n] == '/' && t[k] == '/';
      assert forall i :: 0 <= i < n ==> s[i] == x.namespace[i];
      assert forall i :: 0 <= i < k ==> t[i] == y.namespace[i];
      assert x.namespace == s[..n] && y.namespace == t[..k];
      assert x.name == s[n + 1..] && y.name == t[k + 1..];
    }
  }

  /** A short name is kept whole; of a longer one as much is kept as fits into 63 characters, except for
      dashes at the end. */
  lemma NamespaceShape(hash: string -> string, x: Ref)
    requires IsHexHash(hash)
    ensures var ns := ExamNamespace(hash, x);
            && (|x.name| <= 49 ==> ns == "exam-" + x.name + "-" + hash(x.namespace + "/" + x.name)[..8])
            && (|x.name| > 49 && x.name[48] != '-' ==>
                  |ns| == 63 && ns == "exam-" + x.name[..49] + "-" + hash(x.namespace + "/" + x.name)[..8])
  {
    if |x.name| > 49 && x.name[48] != '-' {
      var cut := x.name[..49];
      assert cut[48] == x.name[48];
      assert TrimDashes(cut) == cut;
    }
  }

  // Slugs.

  /** The `n`-th letter, and the `n`-th of the letters and digits. */
  function Letter(n: nat): char
    requires n < 26
  {
    'a' + n as char
  }

  function LetterOrDigit(n: nat): char
    requires n < 36
  {
    if n < 26 then Letter(n) else '0' + (n - 26) as char
  }

  predicate IsSlug(s: string) {
    |s| == 8 && 'a' <= s[0] <= 'z' && forall i :: 0 <= i < 8 ==> IsLowerAlnum(s[i])
  }

  /** Random draws: draw `i` below the given bound, or no randomness at all. */
  type Draws = (nat, nat) -> Option<nat>

  ghost predicate FairDraws(draws: Draws) {
    forall i: nat, bound: nat :: draws(i, bound).Some? ==> draws(i, bound).value < bound
  }

  /** How many characters position `i` of a slug may choose from. */
  function Choices(i: nat): nat {
    if i == 0 then 26 else 36
  }

  function SlugChar(draws: Draws, i: nat): Option<char> {
    match draws(i, Choices(i))
    case None => None
    case Some(n) => if n >= Choices(i) then None else Some(LetterOrDigit(n))
  }

  /** Fills the buffer position by position; fails exactly when a draw fails. */
  method Generate(draws: Draws) returns (r: Option<string>)
    requires FairDraws(draws)
    ensures r.Some? <==> forall i :: 0 <= i < 8 ==> draws(i, Choices(i)).Some?
    ensures r.Some? ==> IsSlug(r.value) && forall i :: 0 <= i < 8 ==> SlugChar(draws, i) == Some(r.value[i])
  {
    var b := new char[8](_ => '0');
    for i := 0 to 8
      invariant forall k :: 0 <= k < i ==> draws(k, Choices(k)).Some? && SlugChar(draws, k) == Some(b[k])
      invariant forall k :: 0 <= k < i ==> IsLowerAlnum(b[k])
      invariant i > 0 ==> 'a' <= b[0] <= 'z'
    {
      var n := draws(i, Choices(i));
      if n.None? {
        return None;
      }
      b[i] := LetterOrDigit(n.value);
    }
    r := Some(b[..]);
  }

  /** Every slug is a label under RFC 1035, and so can name every object of an instance. */
  lemma SlugIsLabel(s: string)
    requires IsSlug(s)
    ensures IsLabel1035(s) && IsLabel1123(s)
  {
    forall c | c in s ensures IsLowerAlnum(c) {
      var i :| 0 <= i < |s| && s[i] == c;
    }
  }

  function DrawFor(c: char): (n: nat)
    requires IsLowerAlnum(c)
    ensures n < 36 && LetterOrDigit(n) == c
    ensures 'a' <= c <= 'z' ==> n < 26
  {
    if 'a' <= c then (c - 'a') as nat else 26 + (c - '0') as nat
  }

  /** No slug is out of reach: each is what exactly one choice of draws produces. */
  lemma EverySlugReachable(s: string, draws: Draws)
    requires IsSlug(s) && FairDraws(draws)
    ensures (forall i :: 0 <= i < 8 ==> SlugChar(draws, i) == Some(s[i])) <==>
            forall i :: 0 <= i < 8 ==> IsLowerAlnum(s[i]) && draws(i, Choices(i)) == Some(DrawFor(s[i]))
  {
    forall i | 0 <= i < 8
      ensures SlugChar(draws, i) == Some(s[i]) <==> draws(i, Choices(i)) == Some(DrawFor(s[i]))
    {
      assert i == 0 ==> 'a' <= s[i] <= 'z';
    }
  }
}
