// Deterministic names of the cluster secrets synthesised for credentials.
module SecretNames {
  const MAX_LENGTH: nat := 63
  const GIT_PREFIX := "git-integration-"
  const REGISTRY_PREFIX := "registry-credential-"

  datatype Purpose = Pull | Push

  function PurposeText(purpose: Purpose): string {
    if purpose.Pull? then "pull" else "push"
  }

  predicate Alphanumeric(c: char) {
    'a' <= c <= 'z' || '0' <= c <= '9'
  }

  predicate NameChar(c: char) {
    Alphanumeric(c) || c == '-' || c == '.'
  }

  function Lower(c: char): char
    requires 'A' <= c <= 'Z'
  {
    (c as int + 32) as char
  }

  function SanitizedHostChar(c: char): (r: char)
    ensures NameChar(r)
  {
    if NameChar(c) then c else if 'A' <= c <= 'Z' then Lower(c) else '-'
  }

  function SanitizedPurposeChar(c: char): (r: char)
    ensures NameChar(r) && r != '.'
  {
    if Alphanumeric(c) || c == '-' then c else if 'A' <= c <= 'Z' then Lower(c) else '-'
  }

  function SanitizedHost(host: string): string {
    seq(|host|, i requires 0 <= i < |host| => SanitizedHostChar(host[i]))
  }

  function SanitizedPurpose(purpose: string): string {
    seq(|purpose|, i requires 0 <= i < |purpose| => SanitizedPurposeChar(purpose[i]))
  }

  // Without trailing '-' and '.'.
  function TrimmedRight(s: string): (r: string)
    ensures r <= s
    ensures r != "" ==> r[|r| - 1] != '-' && r[|r| - 1] != '.'
    ensures forall i :: |r| <= i < |s| ==> s[i] == '-' || s[i] == '.'
  {
    if s != "" && (s[|s| - 1] == '-' || s[|s| - 1] == '.') then TrimmedRight(s[..|s| - 1]) else s
  }

  function TrimmedName(name: string): string {
    TrimmedRight(if |name| > MAX_LENGTH then name[..MAX_LENGTH] else name)
  }

  function Clipped(prefix: string, hostSuffix: string): string
    requires |prefix| < MAX_LENGTH
  {
    if |hostSuffix| > MAX_LENGTH - |prefix| then hostSuffix[..MAX_LENGTH - |prefix|] else hostSuffix
  }

  function ClusterSecretName(prefix: string, hostSuffix: string): string {
    if MAX_LENGTH - |prefix| < 1 then TrimmedName(prefix[..MAX_LENGTH])
    else TrimmedName(prefix + Clipped(prefix, hostSuffix))
  }

  function GitHostName(host: string): string {
    ClusterSecretName(GIT_PREFIX, SanitizedHost(host))
  }

  function RegistryPrefix(purpose: string): string {
    REGISTRY_PREFIX + SanitizedPurpose(purpose) + "-"
  }

  // The purpose is an arbitrary string; Pull and Push are the two in use.
  function RegistryHostName(host: string, purpose: string): string {
    ClusterSecretName(RegistryPrefix(purpose), SanitizedHost(host))
  }

  // ---- Validity ----

  predicate NameChars(s: string) {
    forall i :: 0 <= i < |s| ==> NameChar(s[i])
  }

  predicate ValidName(s: string) {
    |s| <= MAX_LENGTH && NameChars(s) && (s != "" ==> Alphanumeric(s[|s| - 1]))
  }

  // Any prefix and suffix of name characters give a valid name, of which the
  // prefix up to its last letter or digit survives.
  lemma NameIsValid(prefix: string, hostSuffix: string)
    requires NameChars(prefix) && NameChars(hostSuffix)
    ensures ValidName(ClusterSecretName(prefix, hostSuffix))
  {}

  lemma HostNamesAreValid(host: string, purpose: string)
    ensures ValidName(GitHostName(host)) && ValidName(RegistryHostName(host, purpose))
  {
    assert NameChars(GIT_PREFIX);
    assert NameChars(REGISTRY_PREFIX) && NameChars(SanitizedPurpose(purpose)) && NameChars("-");
    NameIsValid(GIT_PREFIX, SanitizedHost(host));
    NameIsValid(RegistryPrefix(purpose), SanitizedHost(host));
  }

  // No name is empty, and the kind shows in its first letter.
  lemma HostNamesStart(host: string, purpose: string)
    ensures GitHostName(host) != "" && GitHostName(host)[0] == 'g'
    ensures RegistryHostName(host, purpose) != "" && RegistryHostName(host, purpose)[0] == 'r'
  {
    NameKeeps(GIT_PREFIX, SanitizedHost(host), 0);
    NameKeeps(RegistryPrefix(purpose), SanitizedHost(host), 0);
  }

  // ---- Collisions ----

  lemma TrimmedKeeps(s: string, k: nat)
    requires k < |s| && s[k] != '-' && s[k] != '.'
    ensures k < |TrimmedRight(s)| && TrimmedRight(s)[k] == s[k]
  {}

  lemma TrimmedIs(s: string, r: string)
    requires r <= s && (r != "" ==> r[|r| - 1] != '-' && r[|r| - 1] != '.')
    requires forall i :: |r| <= i < |s| ==> s[i] == '-' || s[i] == '.'
    ensures TrimmedRight(s) == r
  {
    var t := TrimmedRight(s);
    if r != "" {
      TrimmedKeeps(s, |r| - 1);
    }
    assert |t| <= |r| by {
      if t != "" {
        assert t[|t| - 1] == s[|t| - 1];
      }
    }
    assert t == s[..|t|] && r == s[..|r|];
  }

  // Trimming a prefixed text trims the text, and the prefix only if nothing else is left.
  lemma TrimmedConcat(prefix: string, s: string)
    ensures TrimmedRight(prefix + s) == if TrimmedRight(s) != "" then prefix + TrimmedRight(s) else TrimmedRight(prefix)
  {
    var t := TrimmedRight(s);
    TrimmedIs(prefix + s, if t != "" then prefix + t else TrimmedRight(prefix));
  }

  // Exactly when two hosts share a name: what is left of them after
  // sanitizing, cutting to the space after the prefix and trimming is the same.
  lemma CollisionExactly(prefix: string, a: string, b: string)
    requires |prefix| < MAX_LENGTH
    ensures ClusterSecretName(prefix, SanitizedHost(a)) == ClusterSecretName(prefix, SanitizedHost(b)) <==>
            TrimmedRight(Clipped(prefix, SanitizedHost(a))) == TrimmedRight(Clipped(prefix, SanitizedHost(b)))
  {
    SuffixesExactly(prefix, SanitizedHost(a), SanitizedHost(b));
  }

  lemma SuffixesExactly(prefix: string, x: string, y: string)
    requires |prefix| < MAX_LENGTH
    ensures ClusterSecretName(prefix, x) == ClusterSecretName(prefix, y) <==>
            TrimmedRight(Clipped(prefix, x)) == TrimmedRight(Clipped(prefix, y))
  {
    var s, t := Clipped(prefix, x), Clipped(prefix, y);
    TrimmedConcat(prefix, s);
    TrimmedConcat(prefix, t);
    var u, v := TrimmedRight(s), TrimmedRight(t);
    assert (prefix + u)[|prefix|..] == u && (prefix + v)[|prefix|..] == v;
  }

  // Characters of hosts that naming does not tell apart: the same but for case,
  // or neither a letter, a digit nor a dot.
  predicate SameInNames(c: char, d: char) {
    || c == d
    || ('A' <= c <= 'Z' && d == Lower(c)) || ('A' <= d <= 'Z' && c == Lower(d))
    || (Dashed(c) && Dashed(d))
  }

  predicate Dashed(c: char) {
    !Alphanumeric(c) && !('A' <= c <= 'Z') && c != '.'
  }

  // Of the first n characters, those from k on are trimmed.
  predicate TailTrimmed(host: string, k: nat, n: nat) {
    forall i :: k <= i < |host| && i < n ==> Dashed(host[i]) || host[i] == '.'
  }

  lemma SanitizedSame(c: char, d: char)
    ensures SanitizedHostChar(c) == SanitizedHostChar(d) <==> SameInNames(c, d)
    ensures SanitizedHostChar(c) == '-' || SanitizedHostChar(c) == '.' <==> Dashed(c) || c == '.'
  {}

  // The hosts agree up to a place from which on nothing of either is left.
  ghost predicate AgreeUpTo(a: string, b: string, n: nat, k: nat) {
    && k <= |a| && k <= |b| && k <= n
    && (forall i :: 0 <= i < k ==> SameInNames(a[i], b[i]))
    && TailTrimmed(a, k, n) && TailTrimmed(b, k, n)
  }

  ghost predicate NamesAgree(a: string, b: string, n: nat) {
    exists k: nat :: AgreeUpTo(a, b, n, k)
  }

  // In terms of the hosts' characters: they share a name exactly when, within
  // the space after the prefix, they agree but for case and separators up to
  // some place, and from there on hold only separators and dots.
  lemma CollisionByCharacter(prefix: string, a: string, b: string, n: nat)
    requires |prefix| < MAX_LENGTH && n == MAX_LENGTH - |prefix|
    ensures ClusterSecretName(prefix, SanitizedHost(a)) == ClusterSecretName(prefix, SanitizedHost(b)) <==>
            NamesAgree(a, b, n)
  {
    ClippedSanitized(prefix, a, n);
    ClippedSanitized(prefix, b, n);
    SharedBySuffixes(prefix, a, b, SanitizedHost(a), SanitizedHost(b), n);
  }

  lemma SharedBySuffixes(prefix: string, a: string, b: string, x: string, y: string, n: nat)
    requires |prefix| < MAX_LENGTH && n == MAX_LENGTH - |prefix|
    requires ClippedTo(a, Clipped(prefix, x), n) && ClippedTo(b, Clipped(prefix, y), n)
    ensures ClusterSecretName(prefix, x) == ClusterSecretName(prefix, y) <==> NamesAgree(a, b, n)
  {
    LeftExactly(prefix, a, b, x, y, n);
    SuffixesExactly(prefix, x, y);
  }

  lemma LeftExactly(prefix: string, a: string, b: string, x: string, y: string, n: nat)
    requires |prefix| < MAX_LENGTH && n == MAX_LENGTH - |prefix|
    requires ClippedTo(a, Clipped(prefix, x), n) && ClippedTo(b, Clipped(prefix, y), n)
    ensures TrimmedRight(Clipped(prefix, x)) == TrimmedRight(Clipped(prefix, y)) <==> NamesAgree(a, b, n)
  {
    TrimmedExactly(a, b, Clipped(prefix, x), Clipped(prefix, y), n);
  }

  lemma ClippedSanitized(prefix: string, host: string, n: nat)
    requires |prefix| < MAX_LENGTH && n == MAX_LENGTH - |prefix|
    ensures ClippedTo(host, Clipped(prefix, SanitizedHost(host)), n)
  {}

  lemma TrimmedExactly(a: string, b: string, s: string, t: string, n: nat)
    requires ClippedTo(a, s, n) && ClippedTo(b, t, n)
    ensures TrimmedRight(s) == TrimmedRight(t) <==> NamesAgree(a, b, n)
  {
    if TrimmedRight(s) == TrimmedRight(t) {
      TrimmedAgree(a, b, s, t, n);
    }
    if NamesAgree(a, b, n) {
      var k: nat :| AgreeUpTo(a, b, n, k);
      AgreeTrimmed(a, b, s, t, n, k);
    }
  }

  predicate ClippedTo(host: string, s: string, n: nat) {
    |s| == (if |host| < n then |host| else n) && forall i :: 0 <= i < |s| ==> s[i] == SanitizedHostChar(host[i])
  }

  lemma TrimmedAgree(a: string, b: string, s: string, t: string, n: nat)
    requires ClippedTo(a, s, n) && ClippedTo(b, t, n) && TrimmedRight(s) == TrimmedRight(t)
    ensures AgreeUpTo(a, b, n, |TrimmedRight(s)|)
  {
    var k := |TrimmedRight(s)|;
    assert s[..k] == TrimmedRight(s) == t[..k];
    forall i | 0 <= i < k ensures SameInNames(a[i], b[i]) {
      assert s[..k][i] == s[i] && t[..k][i] == t[i];
      SanitizedSame(a[i], b[i]);
    }
    forall i | k <= i < |s| ensures Dashed(a[i]) || a[i] == '.' {
      SanitizedSame(a[i], a[i]);
    }
    forall i | k <= i < |t| ensures Dashed(b[i]) || b[i] == '.' {
      SanitizedSame(b[i], b[i]);
    }
  }

  lemma AgreeTrimmed(a: string, b: string, s: string, t: string, n: nat, k: nat)
    requires ClippedTo(a, s, n) && ClippedTo(b, t, n) && AgreeUpTo(a, b, n, k)
    ensures TrimmedRight(s) == TrimmedRight(t)
  {
    forall i | 0 <= i < k ensures s[i] == t[i] {
      SanitizedSame(a[i], b[i]);
    }
    forall i | k <= i < |s| ensures s[i] == '-' || s[i] == '.' {
      SanitizedSame(a[i], a[i]);
    }
    forall i | k <= i < |t| ensures t[i] == '-' || t[i] == '.' {
      SanitizedSame(b[i], b[i]);
    }
    assert s[..k] == t[..k];
    TrimmedPrefix(s, k);
    TrimmedPrefix(t, k);
  }

  lemma TrimmedPrefix(s: string, k: nat)
    requires k <= |s| && forall i :: k <= i < |s| ==> s[i] == '-' || s[i] == '.'
    ensures TrimmedRight(s) == TrimmedRight(s[..k])
  {
    var t := s[..k];
    var r := TrimmedRight(t);
    assert r == t[..|r|] == s[..|r|];
    forall i | |r| <= i < |s| ensures s[i] == '-' || s[i] == '.' {
      assert i < k ==> s[i] == t[i];
    }
    TrimmedIs(s, r);
  }

  // A host that sanitizing, cutting and trimming leave alone.
  predicate Canonical(prefix: string, host: string) {
    && SanitizedHost(host) == host
    && |prefix| + |host| <= MAX_LENGTH
    && (host != "" ==> Alphanumeric(host[|host| - 1]))
  }

  lemma CanonicalHostsDiffer(prefix: string, a: string, b: string)
    requires |prefix| < MAX_LENGTH && Canonical(prefix, a) && Canonical(prefix, b) && a != b
    ensures ClusterSecretName(prefix, SanitizedHost(a)) != ClusterSecretName(prefix, SanitizedHost(b))
  {
    CollisionExactly(prefix, a, b);
    TrimmedIs(a, a);
    TrimmedIs(b, b);
  }

  // A port separator is sanitized to '-', so these two hosts share their names.
  lemma PortsCollide()
    ensures GitHostName("reg:5000") == GitHostName("reg-5000")
  {
    assert SanitizedHost("reg:5000") == SanitizedHost("reg-5000");
  }

  function LowerCase(s: string): string {
    seq(|s|, i requires 0 <= i < |s| => if 'A' <= s[i] <= 'Z' then Lower(s[i]) else s[i])
  }

  // Names do not depend on the case of a host's letters.
  lemma CaseIrrelevant(host: string, purpose: string)
    ensures GitHostName(LowerCase(host)) == GitHostName(host)
    ensures RegistryHostName(LowerCase(host), LowerCase(purpose)) == RegistryHostName(host, purpose)
  {
    assert SanitizedHost(LowerCase(host)) == SanitizedHost(host);
    assert SanitizedPurpose(LowerCase(purpose)) == SanitizedPurpose(purpose);
  }

  // Git, pull and push names are apart, whatever the hosts.
  lemma KindsNeverCollide(a: string, b: string, purpose: string)
    ensures GitHostName(a) != RegistryHostName(b, purpose)
    ensures RegistryHostName(a, PurposeText(Pull)) != RegistryHostName(b, PurposeText(Push))
  {
    HostNamesStart(a, purpose);
    HostNamesStart(b, purpose);
    PurposePrefix(Pull);
    PurposePrefix(Push);
    NameKeeps(RegistryPrefix(PurposeText(Pull)), SanitizedHost(a), |REGISTRY_PREFIX| + 2);
    NameKeeps(RegistryPrefix(PurposeText(Push)), SanitizedHost(b), |REGISTRY_PREFIX| + 2);
  }

  lemma NameKeeps(prefix: string, hostSuffix: string, k: nat)
    requires k < |prefix| && k < MAX_LENGTH && prefix[k] != '-' && prefix[k] != '.'
    ensures k < |ClusterSecretName(prefix, hostSuffix)| && ClusterSecretName(prefix, hostSuffix)[k] == prefix[k]
  {
    if |prefix| < MAX_LENGTH {
      TrimmedKeeps(prefix + Clipped(prefix, hostSuffix), k);
    } else {
      TrimmedKeeps(prefix[..MAX_LENGTH], k);
    }
  }

  lemma PurposePrefix(purpose: Purpose)
    ensures var prefix := RegistryPrefix(PurposeText(purpose));
            && |prefix| == |REGISTRY_PREFIX| + 5
            && prefix[|REGISTRY_PREFIX| + 2] == if purpose.Pull? then 'l' else 's'
  {
    assert SanitizedPurpose(PurposeText(purpose)) == PurposeText(purpose);
  }

  // ---- Names character by character ----

  // The character that stands for c in a host's name, and in a purpose's.
  predicate StandsFor(d: char, c: char, dots: bool) {
    if 'a' <= c <= 'z' || '0' <= c <= '9' || c == '-' || (dots && c == '.') then d == c
    else if 'A' <= c <= 'Z' then d as int == c as int + 32
    else d == '-'
  }

  lemma SanitizedExactly(host: string, purpose: string)
    ensures |SanitizedHost(host)| == |host| && |SanitizedPurpose(purpose)| == |purpose|
    ensures forall i :: 0 <= i < |host| ==> StandsFor(SanitizedHost(host)[i], host[i], true)
    ensures forall i :: 0 <= i < |purpose| ==> StandsFor(SanitizedPurpose(purpose)[i], purpose[i], false)
  {}

  // A name is as much of the full text as fits, without the '-' and '.' it ends in.
  predicate NameOf(name: string, full: string) {
    && |name| <= 63 && name <= full
    && (name != "" ==> name[|name| - 1] != '-' && name[|name| - 1] != '.')
    && forall i :: |name| <= i < 63 && i < |full| ==> full[i] == '-' || full[i] == '.'
  }

  lemma NamesExactly(host: string, purpose: string)
    ensures NameOf(GitHostName(host), "git-integration-" + SanitizedHost(host))
    ensures NameOf(RegistryHostName(host, purpose),
                   "registry-credential-" + SanitizedPurpose(purpose) + "-" + SanitizedHost(host))
  {
    NameExactly(GIT_PREFIX, SanitizedHost(host));
    NameExactly(RegistryPrefix(purpose), SanitizedHost(host));
  }

  lemma NameExactly(prefix: string, hostSuffix: string)
    ensures NameOf(ClusterSecretName(prefix, hostSuffix), prefix + hostSuffix)
  {
    var full := prefix + hostSuffix;
    var cut := if |full| > MAX_LENGTH then full[..MAX_LENGTH] else full;
    if |prefix| < MAX_LENGTH {
      assert prefix + Clipped(prefix, hostSuffix) == cut;
    } else {
      assert prefix[..MAX_LENGTH] == cut;
    }
    TrimmedOf(cut, full);
  }

  lemma TrimmedOf(cut: string, full: string)
    requires cut <= full && |cut| <= MAX_LENGTH && (|cut| < MAX_LENGTH ==> cut == full)
    ensures NameOf(TrimmedRight(cut), full)
  {
    var name := TrimmedRight(cut);
    assert forall i :: 0 <= i < |cut| ==> full[i] == cut[i];
    assert name == cut[..|name|] == full[..|name|];
  }

  // A host that naming leaves alone is found in its name as it is.
  lemma CanonicalNameIs(prefix: string, host: string)
    requires |prefix| < MAX_LENGTH && Canonical(prefix, host) && host != ""
    ensures ClusterSecretName(prefix, SanitizedHost(host)) == prefix + host
  {
    TrimmedIs(prefix + host, prefix + host);
  }
}
