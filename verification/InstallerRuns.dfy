// Install and upgrade runs, and what any sequence of them does to the stored secret.
module InstallerRuns {
  import opened Wrappers
  import opened InstallerPlatform
  import opened InstallerSecrets

  datatype SharedCompute = SharedCompute(url: string, caData: string, token: string) {
    predicate IsSet() {
      url != "" && caData != "" && token != ""
    }
  }

  function SharedOf(texts: Texts): SharedCompute {
    SharedCompute(texts.clusterAPIURL, texts.clusterCAData, texts.clusterToken)
  }

  // Passwords are generated from letters, digits and the signs of base64.
  type GeneratedPasswords = p: Passwords | p.Complete() && PlainPasswords(p) witness Passwords("d", "j", "e", "a")

  datatype Kind = Install(email: string) | Upgrade

  // One run of the installer, with everything outside it that decides its
  // course: whether the steps before the configuration succeed, whether each
  // read of the secret answers (install reads twice), the cluster credentials
  // it can extract, the passwords it would generate, and whether the apply succeeds.
  datatype Run = Run(
    kind: Kind,
    platform: PlatformFlags,
    github: GitHubFlags,
    host: Host,
    prepared: bool,
    firstRead: bool,
    secondRead: bool,
    extracted: Option<SharedCompute>,
    generated: GeneratedPasswords,
    applies: bool)

  function PlatformIn(stored: Option<Bootstrap>): PlatformConfig {
    if stored.Some? then stored.value.Platform() else NO_PLATFORM
  }

  function TextsIn(stored: Option<Bootstrap>): Texts {
    if stored.Some? then stored.value.texts else NO_TEXTS
  }

  function EnsuredShared(platform: PlatformConfig, stored: SharedCompute,
                         extracted: Option<SharedCompute>): Option<SharedCompute> {
    if !platform.Enabled() || stored.IsSet() then Some(stored) else extracted
  }

  // Template values before GitHub flags are applied.
  function Configured(platform: PlatformConfig, shared: SharedCompute): Texts {
    NO_TEXTS.(baseDomain := platform.baseDomain,
              cloudflareToken := platform.cloudflareToken,
              acmeEnvironment := platform.acmeEnvironment,
              clusterAPIURL := shared.url, clusterCAData := shared.caData, clusterToken := shared.token)
  }

  // The texts a run supplies once its platform configuration is resolved; None if it stops.
  function SuppliedTexts(run: Run, platform: PlatformConfig, stored: Texts): Option<Texts> {
    var shared := EnsuredShared(platform, SharedOf(stored), run.extracted);
    if shared.None? || GitHubResult(run.host, run.github).Some? then None
    else Some(GitHubTexts(run.host, run.github, Configured(platform, shared.value)))
  }

  // The values a run supplies, given what its first read found; None if it stops.
  function Supplied(run: Run, first: Option<Bootstrap>): Option<Bootstrap> {
    var platform := ResolvePlatformConfig(run.host, run.platform, PlatformIn(first));
    if platform.Failure? then None
    else
      var texts := SuppliedTexts(run, platform.value, TextsIn(first));
      if texts.None? then None
      else Some(Bootstrap(run.generated, if run.kind.Install? then run.kind.email else "", texts.value,
                          platform.value.tlsEnabled))
  }

  // What a run sets out to do with the secret, given what its reads found.
  datatype Intent = Stop | LeaveAsIs | Write(values: Bootstrap)

  function Planned(supplied: Bootstrap, existing: Option<Bootstrap>): Intent {
    if existing.None? then Write(supplied)
    else
      var given := supplied.(passwords := existing.value.passwords);
      if Differs(given, existing.value) then Write(Merged(given, existing.value)) else LeaveAsIs
  }

  function IntentOf(run: Run, first: Option<Bootstrap>, second: Option<Bootstrap>): Intent {
    var existing := if run.kind.Install? then second else first;
    if !run.prepared || (run.kind.Upgrade? && first.None?) then Stop
    else
      var supplied := Supplied(run, first);
      if supplied.None? then Stop else Planned(supplied.value, existing)
  }

  function ReadOf(secret: Option<SecretData>, answers: bool): Option<Bootstrap> {
    if answers && secret.Some? then ReadSecret(secret.value) else None
  }

  datatype Effect = Effect(secret: Option<SecretData>, succeeded: bool, written: bool)

  function EffectOf(secret: Option<SecretData>, run: Run): Effect {
    match IntentOf(run, ReadOf(secret, run.firstRead), ReadOf(secret, run.secondRead))
    case Stop => Effect(secret, false, false)
    case LeaveAsIs => Effect(secret, true, false)
    case Write(values) =>
      var manifest := Render(run.host.scalar, values);
      if run.applies && manifest.Some? then Effect(manifest, true, true) else Effect(secret, false, false)
  }

  // ---- The run itself ----

  method EnsureSharedComputeClusterCredentials(platform: PlatformConfig, vals: Values,
                                               extracted: Option<SharedCompute>) returns (ok: bool)
    requires vals.texts == Configured(platform, SharedOf(vals.texts))
    modifies vals`texts
    ensures var ensured := EnsuredShared(platform, SharedOf(old(vals.texts)), extracted);
            && ok == ensured.Some?
            && (ok ==> vals.texts == Configured(platform, ensured.value))
  {
    if platform.baseDomain == "" || SharedOf(vals.texts).IsSet() {
      return true;
    }
    if extracted.None? {
      return false;
    }
    vals.texts := vals.texts.(clusterAPIURL := extracted.value.url);
    vals.texts := vals.texts.(clusterCAData := extracted.value.caData);
    vals.texts := vals.texts.(clusterToken := extracted.value.token);
    return true;
  }

  method RunInstaller(cluster: Cluster, run: Run) returns (ok: bool)
    modifies cluster
    ensures cluster.secret == EffectOf(old(cluster.secret), run).secret
    ensures ok == EffectOf(old(cluster.secret), run).succeeded
  {
    var first := ReadOf(cluster.secret, run.firstRead);
    if !run.prepared || (run.kind.Upgrade? && first.None?) {
      return false;
    }
    var vals := BuildValues(run, first);
    if vals == null {
      return false;
    }
    ok := LoadOrMerge(cluster, run, first, vals);
  }

  // The values of a run, or null when it stops with an error.
  method BuildValues(run: Run, first: Option<Bootstrap>) returns (vals: Values?)
    ensures vals != null ==> fresh(vals) && Supplied(run, first) == Some(vals.View())
    ensures vals == null ==> Supplied(run, first).None?
  {
    var platform := ResolvePlatformConfig(run.host, run.platform, PlatformIn(first));
    if platform.Failure? {
      return null;
    }
    var email := if run.kind.Install? then run.kind.email else "";
    vals := new Values(Bootstrap(run.generated, email, Configured(platform.value, SharedOf(TextsIn(first))),
                                 platform.value.tlsEnabled));
    var sharedOk := EnsureSharedComputeClusterCredentials(platform.value, vals, run.extracted);
    if !sharedOk {
      return null;
    }
    var githubError := ApplyGitHubFlags(run.host, run.github, vals);
    if githubError.Some? {
      return null;
    }
  }

  // Install reads the secret again and creates it when there is none; upgrade
  // merges into what it read at the start.
  method LoadOrMerge(cluster: Cluster, run: Run, first: Option<Bootstrap>, vals: Values) returns (ok: bool)
    requires run.prepared && (run.kind.Upgrade? ==> first.Some?) && first == ReadOf(cluster.secret, run.firstRead)
    requires Supplied(run, first) == Some(vals.View())
    modifies cluster, vals
    ensures cluster.secret == EffectOf(old(cluster.secret), run).secret
    ensures ok == EffectOf(old(cluster.secret), run).succeeded
  {
    var second := ReadOf(cluster.secret, run.secondRead);
    var existing := if run.kind.Install? then second else first;
    if existing.None? {
      var manifest := Render(run.host.scalar, Bootstrap(vals.passwords, vals.adminEmail, vals.texts, vals.tls));
      ok := cluster.Apply(manifest, run.applies);
    } else {
      ok := MergeInto(run.host.scalar, cluster, vals, existing.value, run.applies);
    }
    assert IntentOf(run, first, second) == Planned(old(vals.View()), existing);
  }

  method MergeInto(scalar: string -> Option<string>, cluster: Cluster, vals: Values, existing: Bootstrap, applies: bool)
    returns (ok: bool)
    modifies cluster, vals
    ensures match Planned(old(vals.View()), Some(existing))
            case Write(values) =>
              && ok == (applies && Render(scalar, values).Some?)
              && cluster.secret == if ok then Render(scalar, values) else old(cluster.secret)
            case _ => ok && cluster.secret == old(cluster.secret)
  {
    vals.passwords := existing.passwords;
    var stored := new Values(existing);
    ok := MergeBootstrapConfig(scalar, vals, stored, cluster, applies);
  }

  // A run that fails leaves the secret as it was; a secret that changed was
  // written, whole, by a run that succeeded.
  lemma OnlySuccessWrites(secret: Option<SecretData>, run: Run)
    ensures var effect := EffectOf(secret, run);
            var intent := IntentOf(run, ReadOf(secret, run.firstRead), ReadOf(secret, run.secondRead));
            && (!effect.succeeded ==> effect.secret == secret)
            && (effect.secret != secret ==> effect.written)
            && (effect.written ==>
                  effect.succeeded && intent.Write? && effect.secret == Render(run.host.scalar, intent.values))
  {}

  // Exactly when a run succeeds, step by step.
  lemma SucceedsExactly(secret: Option<SecretData>, run: Run)
    ensures var first, intent := ReadOf(secret, run.firstRead), Intended(secret, run);
            var resolved := ResolvePlatformConfig(run.host, run.platform, PlatformIn(first));
            EffectOf(secret, run).succeeded <==>
            && run.prepared && (run.kind.Upgrade? ==> first.Some?)
            && resolved.Success?
            && (resolved.value.baseDomain != "" && !SharedOf(TextsIn(first)).IsSet() ==> run.extracted.Some?)
            && AppFlagsTogether(run.github)
            && (run.github.appKeyFile != "" ==> run.host.files(run.github.appKeyFile).Some?)
            && (intent.Write? ==> run.applies && Render(run.host.scalar, intent.values).Some?)
  {}

  // ---- What a run writes ----

  predicate PlainCredentials(c: SharedCompute) {
    Plain(c.url) && Plain(c.caData) && Plain(c.token)
  }

  // The host reads manifests and names as it should, and what it extracts is
  // a URL, base64 data and a token.
  ghost predicate Ordinary(run: Run) {
    HostRules(run.host) && (run.extracted.Some? ==> PlainCredentials(run.extracted.value))
  }

  // A readable secret has all four passwords; no platform value is stored
  // without a base domain; the values that are to last are plain.
  predicate StoredSound(stored: Option<Bootstrap>) {
    stored.Some? ==> stored.value.passwords.Complete() && Sound(stored.value.Platform()) && LastingPlain(stored.value)
  }

  function ExistingFor(run: Run, first: Option<Bootstrap>, second: Option<Bootstrap>): Option<Bootstrap> {
    if run.kind.Install? then second else first
  }

  // A run resolves and supplies over what its first read found, and merges into
  // what it takes to exist; when it leaves the secret as it is, that is because
  // merging changes nothing.
  lemma WhatIsWritten(run: Run, first: Option<Bootstrap>, second: Option<Bootstrap>)
      returns (platform: PlatformConfig, supplied: Texts)
    requires !IntentOf(run, first, second).Stop?
    ensures ResolvePlatformConfig(run.host, run.platform, PlatformIn(first)) == Success(platform)
    ensures SuppliedTexts(run, platform, TextsIn(first)) == Some(supplied)
    ensures var intent, existing := IntentOf(run, first, second), ExistingFor(run, first, second);
            match intent
            case Write(values) =>
              && values.texts == MergedTexts(supplied, TextsIn(existing)) && values.tls == platform.tlsEnabled
              && values.passwords == if existing.Some? then existing.value.passwords else run.generated
            case _ =>
              && existing.Some?
              && MergedTexts(supplied, TextsIn(existing)) == TextsIn(existing)
              && existing.value.tls == platform.tlsEnabled
  {
    platform := ResolvePlatformConfig(run.host, run.platform, PlatformIn(first)).value;
    supplied := SuppliedTexts(run, platform, TextsIn(first)).value;
    MergedWithNothing(supplied);
  }

  lemma MergedWithNothing(texts: Texts)
    ensures MergedTexts(texts, NO_TEXTS) == texts
  {}

  // Shared compute and platform values among those a run supplies.
  lemma SuppliedPlatform(run: Run, platform: PlatformConfig, stored: Texts)
    requires SuppliedTexts(run, platform, stored).Some?
    ensures var supplied := SuppliedTexts(run, platform, stored).value;
            && supplied.baseDomain == platform.baseDomain
            && supplied.cloudflareToken == platform.cloudflareToken
            && supplied.acmeEnvironment == platform.acmeEnvironment
            && Some(SharedOf(supplied)) == EnsuredShared(platform, SharedOf(stored), run.extracted)
  {}

  // An accepted base domain and ACME environment are plain.
  lemma ResolvedIsPlain(host: Host, flags: PlatformFlags, stored: PlatformConfig)
    requires HostRules(host) && Plain(stored.baseDomain) && Plain(stored.acmeEnvironment)
    requires Sound(stored) && ResolvePlatformConfig(host, flags, stored).Success?
    ensures var resolved := ResolvePlatformConfig(host, flags, stored).value;
            Plain(resolved.baseDomain) && Plain(resolved.acmeEnvironment)
  {
    var resolved := ResolvePlatformConfig(host, flags, stored).value;
    if resolved.Enabled() {
      assert host.isSubdomain(resolved.baseDomain);
    }
  }

  // Whatever its reads found, a run writes sound values.
  lemma SoundIsWritten(run: Run, first: Option<Bootstrap>, second: Option<Bootstrap>)
    requires Ordinary(run) && StoredSound(first) && StoredSound(second)
    requires IntentOf(run, first, second).Write?
    ensures StoredSound(Some(IntentOf(run, first, second).values))
  {
    var values, existing := IntentOf(run, first, second).values, ExistingFor(run, first, second);
    var platform, supplied := WhatIsWritten(run, first, second);
    AcceptedConfig(run.host, run.platform, PlatformIn(first));
    ResolvedIsPlain(run.host, run.platform, PlatformIn(first));
    SuppliedPlatform(run, platform, TextsIn(first));
    NothingIsPlain();
    SharedIsPlain(platform, SharedOf(TextsIn(first)), run.extracted);
    SoundMerge(platform, supplied, TextsIn(existing), values);
    PlainMerge(supplied, TextsIn(existing));
  }

  lemma NothingIsPlain()
    ensures PlainTexts(NO_TEXTS)
  {}

  // The lasting texts are plain.
  predicate PlainTexts(texts: Texts) {
    Plain(texts.baseDomain) && Plain(texts.acmeEnvironment) && PlainShared(texts)
  }

  lemma PlainMerge(given: Texts, stored: Texts)
    requires PlainTexts(given) && PlainTexts(stored)
    ensures PlainTexts(MergedTexts(given, stored))
  {}

  lemma SharedIsPlain(platform: PlatformConfig, stored: SharedCompute, extracted: Option<SharedCompute>)
    requires PlainCredentials(stored) && (extracted.Some? ==> PlainCredentials(extracted.value))
    requires EnsuredShared(platform, stored, extracted).Some?
    ensures PlainCredentials(EnsuredShared(platform, stored, extracted).value)
  {}

  lemma SoundMerge(platform: PlatformConfig, supplied: Texts, stored: Texts, values: Bootstrap)
    requires Sound(platform) && values.texts == MergedTexts(supplied, stored) && values.tls == platform.tlsEnabled
    requires supplied.baseDomain == platform.baseDomain && supplied.cloudflareToken == platform.cloudflareToken
    requires supplied.acmeEnvironment == platform.acmeEnvironment
    requires stored.baseDomain == "" ==> stored.cloudflareToken == "" && stored.acmeEnvironment == ""
    ensures Sound(values.Platform())
  {}

  // ---- One run on the secret ----

  ghost predicate SecretSound(secret: Option<SecretData>) {
    (secret.Some? ==> ReadSecret(secret.value).Some?) && StoredSound(ReadOf(secret, true))
  }

  // What a run takes to exist: an install goes by its second read, and an
  // upgrade that goes on by its only one.
  function ExistingIn(secret: Option<SecretData>, run: Run): Option<Bootstrap> {
    if run.kind.Install? && !run.secondRead then None else ReadOf(secret, true)
  }

  function Intended(secret: Option<SecretData>, run: Run): Intent {
    IntentOf(run, ReadOf(secret, run.firstRead), ReadOf(secret, run.secondRead))
  }

  // Whether its reads answer or not, a run keeps the secret sound, and what it
  // writes of the lasting values is read back.
  lemma ReadAfter(secret: Option<SecretData>, run: Run)
    requires SecretSound(secret) && Ordinary(run)
    ensures SecretSound(EffectOf(secret, run).secret)
    ensures EffectOf(secret, run).written ==>
              var after := ReadOf(EffectOf(secret, run).secret, true);
              after.Some? && LastingSame(after.value, Intended(secret, run).values)
  {
    if EffectOf(secret, run).written {
      SoundIsWritten(run, ReadOf(secret, run.firstRead), ReadOf(secret, run.secondRead));
      LastingRead(run.host, Intended(secret, run).values);
      StaysSound(Intended(secret, run).values, run, secret);
    }
  }

  // Of the values that may be read back otherwise, only the token belongs to
  // the platform, and only a configured platform has one.
  lemma StaysSound(values: Bootstrap, run: Run, secret: Option<SecretData>)
    requires HostRules(run.host) && StoredSound(Some(values)) && Render(run.host.scalar, values).Some?
    requires LastingSame(Decoded(Render(run.host.scalar, values).value), values)
    ensures StoredSound(Some(Decoded(Render(run.host.scalar, values).value)))
  {
    if values.texts.cloudflareToken == "" {
      PlainIsRead(run.host, values, CloudflareAPIToken);
    }
  }

  // Both reads of an install see the secret that is there; an upgrade reads
  // once, and stops if it cannot.
  predicate ReadsAnswer(run: Run) {
    run.kind.Install? ==> run.firstRead && run.secondRead
  }

  // What one run may not change.
  predicate Permanent(before: Option<Bootstrap>, after: Option<Bootstrap>) {
    && (before.Some? ==> after.Some? && after.value.passwords == before.value.passwords)
    && Keeps(PlatformIn(before), PlatformIn(after))
    && (SharedOf(TextsIn(before)).IsSet() ==> SharedOf(TextsIn(after)) == SharedOf(TextsIn(before)))
  }

  // Exactly when one run keeps all of that: it fails, or every lasting value
  // survives it.
  lemma RunKeepsPermanent(secret: Option<SecretData>, run: Run)
    requires SecretSound(secret) && Ordinary(run)
    ensures Permanent(ReadOf(secret, true), ReadOf(EffectOf(secret, run).secret, true)) <==>
            !EffectOf(secret, run).succeeded || LastingSurvives(run, ReadOf(secret, true))
  {
    if EffectOf(secret, run).succeeded {
      var before, after := ReadOf(secret, true), ReadOf(EffectOf(secret, run).secret, true);
      if before.Some? {
        PasswordsSurvive(secret, run);
        if PlatformIn(before).Enabled() {
          BaseDomainSurvives(secret, run);
          if PlatformIn(before).acmeEnvironment != "" {
            ACMESurvives(secret, run);
          }
        }
        if SharedOf(TextsIn(before)).IsSet() {
          SharedComputeSurvives(secret, run);
        }
      }
    }
  }

  // What a run that succeeds must be for every lasting value to survive it.
  predicate LastingSurvives(run: Run, before: Option<Bootstrap>) {
    var platform, shared := PlatformIn(before), SharedOf(TextsIn(before));
    && (before.Some? ==> KeepsPasswords(run, before.value.passwords))
    && (platform.Enabled() ==>
          KeepsBaseDomain(run, platform.baseDomain) &&
          (platform.acmeEnvironment != "" ==> KeepsACME(run, platform.acmeEnvironment)))
    && (shared.IsSet() ==> KeepsShared(run, shared))
  }

  lemma AnsweredSurvives(secret: Option<SecretData>, run: Run)
    requires ReadsAnswer(run) && EffectOf(secret, run).succeeded
    ensures LastingSurvives(run, ReadOf(secret, true))
  {}

  // ---- Whole histories ----

  function AfterRuns(secret: Option<SecretData>, runs: seq<Run>): Option<SecretData>
    decreases |runs|
  {
    if runs == [] then secret else AfterRuns(EffectOf(secret, runs[0]).secret, runs[1..])
  }

  // At each run of the sequence that succeeds, every lasting value survives.
  ghost predicate Harmless(secret: Option<SecretData>, runs: seq<Run>)
    decreases |runs|
  {
    runs != [] ==>
      && Ordinary(runs[0])
      && (EffectOf(secret, runs[0]).succeeded ==> LastingSurvives(runs[0], ReadOf(secret, true)))
      && Harmless(EffectOf(secret, runs[0]).secret, runs[1..])
  }

  // Over any sequence of such install and upgrade runs, failed ones included, a
  // configured base domain, a configured ACME environment, complete shared
  // compute credentials and the generated passwords never change.
  lemma {:induction false} HarmlessRunsKeepAll(secret: Option<SecretData>, runs: seq<Run>)
    requires SecretSound(secret) && Harmless(secret, runs)
    ensures SecretSound(AfterRuns(secret, runs))
    ensures Permanent(ReadOf(secret, true), ReadOf(AfterRuns(secret, runs), true))
    decreases |runs|
  {
    if runs != [] {
      ReadAfter(secret, runs[0]);
      RunKeepsPermanent(secret, runs[0]);
      HarmlessRunsKeepAll(EffectOf(secret, runs[0]).secret, runs[1..]);
    }
  }

  // In particular, they never change as long as the reads of installs answer.
  lemma {:induction false} ConfigurationIsPermanent(secret: Option<SecretData>, runs: seq<Run>)
    requires SecretSound(secret) && forall i :: 0 <= i < |runs| ==> Ordinary(runs[i]) && ReadsAnswer(runs[i])
    ensures SecretSound(AfterRuns(secret, runs))
    ensures Permanent(ReadOf(secret, true), ReadOf(AfterRuns(secret, runs), true))
  {
    AnsweredIsHarmless(secret, runs);
    HarmlessRunsKeepAll(secret, runs);
  }

  lemma {:induction false} AnsweredIsHarmless(secret: Option<SecretData>, runs: seq<Run>)
    requires forall i :: 0 <= i < |runs| ==> Ordinary(runs[i]) && ReadsAnswer(runs[i])
    ensures Harmless(secret, runs)
    decreases |runs|
  {
    if runs != [] {
      if EffectOf(secret, runs[0]).succeeded {
        AnsweredSurvives(secret, runs[0]);
      }
      AnsweredIsHarmless(EffectOf(secret, runs[0]).secret, runs[1..]);
    }
  }

  // The token a run reads, if it reads one, is plain.
  predicate PlainTokenFile(run: Run) {
    run.host.files(run.platform.tokenFile).Some? ==> Plain(TrimSpace(run.host.files(run.platform.tokenFile).value))
  }

  ghost predicate UsableStored(host: Host, secret: Option<SecretData>) {
    var platform := PlatformIn(ReadOf(secret, true));
    UsableTLS(host, platform) && Plain(platform.cloudflareToken)
  }

  // TLS is only ever stored in a usable configuration, whether reads answer or not.
  lemma {:induction false} StoredTLSIsUsable(secret: Option<SecretData>, runs: seq<Run>, host: Host)
    requires SecretSound(secret) && UsableStored(host, secret)
    requires forall i :: 0 <= i < |runs| ==>
               Ordinary(runs[i]) && PlainTokenFile(runs[i]) && runs[i].host.isSubdomain == host.isSubdomain
    ensures UsableStored(host, AfterRuns(secret, runs))
    decreases |runs|
  {
    if runs != [] {
      ReadAfter(secret, runs[0]);
      RunKeepsUsableTLS(secret, runs[0], host);
      StoredTLSIsUsable(EffectOf(secret, runs[0]).secret, runs[1..], host);
    }
  }

  lemma RunKeepsUsableTLS(secret: Option<SecretData>, run: Run, host: Host)
    requires SecretSound(secret) && UsableStored(host, secret)
    requires Ordinary(run) && PlainTokenFile(run) && run.host.isSubdomain == host.isSubdomain
    ensures UsableStored(host, EffectOf(secret, run).secret)
  {
    if EffectOf(secret, run).written {
      EmptyIsPlain();
      UsableIsWritten(run, ReadOf(secret, run.firstRead), ReadOf(secret, run.secondRead), host);
      UsableIsRead(secret, run, host);
    }
  }

  lemma EmptyIsPlain()
    ensures PlainToken(None)
  {}

  lemma UsableIsRead(secret: Option<SecretData>, run: Run, host: Host)
    requires SecretSound(secret) && Ordinary(run) && EffectOf(secret, run).written
    requires UsableTLS(host, Intended(secret, run).values.Platform())
    requires Plain(Intended(secret, run).values.texts.cloudflareToken)
    ensures UsableStored(host, EffectOf(secret, run).secret)
  {
    var values := Intended(secret, run).values;
    var after := EffectOf(secret, run).secret;
    ReadAfter(secret, run);
    TokenRead(run.host, values);
    assert after == Render(run.host.scalar, values) && ReadOf(after, true) == Some(Decoded(after.value));
    SameUsableTLS(host, values, Decoded(after.value));
  }

  predicate PlainToken(stored: Option<Bootstrap>) {
    Plain(PlatformIn(stored).cloudflareToken)
  }

  lemma UsableIsWritten(run: Run, first: Option<Bootstrap>, second: Option<Bootstrap>, host: Host)
    requires IntentOf(run, first, second).Write?
    requires PlainToken(first) && PlainToken(second) && PlainTokenFile(run) && run.host.isSubdomain == host.isSubdomain
    ensures var platform := IntentOf(run, first, second).values.Platform();
            UsableTLS(host, platform) && Plain(platform.cloudflareToken)
  {
    var platform, supplied := WhatIsWritten(run, first, second);
    AcceptedConfig(run.host, run.platform, PlatformIn(first));
    SuppliedPlatform(run, platform, TextsIn(first));
    ResolvedToken(run.host, run.platform, PlatformIn(first));
    if platform.tlsEnabled {
      assert IntentOf(run, first, second).values.Platform() == platform;
    }
  }

  lemma ResolvedToken(host: Host, flags: PlatformFlags, stored: PlatformConfig)
    requires ResolvePlatformConfig(host, flags, stored).Success?
    ensures var token := ResolvePlatformConfig(host, flags, stored).value.cloudflareToken;
            || token == stored.cloudflareToken
            || (host.files(flags.tokenFile).Some? && token == TrimSpace(host.files(flags.tokenFile).value))
  {}

  lemma SameUsableTLS(host: Host, b: Bootstrap, read: Bootstrap)
    requires LastingSame(read, b) && read.texts.cloudflareToken == b.texts.cloudflareToken
    requires UsableTLS(host, b.Platform())
    ensures UsableTLS(host, read.Platform())
  {}

  // ---- Reads that do not answer ----

  // An install whose first read does not answer resolves its flags against
  // nothing, and one whose second read does not answer merges into nothing.
  // Exactly when each lasting value survives a run that succeeds:
  predicate KeepsBaseDomain(run: Run, before: string) {
    || run.firstRead
    || TrimSpace(run.platform.baseDomain) == before
    || (TrimSpace(run.platform.baseDomain) == "" && run.secondRead)
  }

  lemma BaseDomainSurvives(secret: Option<SecretData>, run: Run)
    requires SecretSound(secret) && Ordinary(run) && PlatformIn(ReadOf(secret, true)).Enabled()
    requires EffectOf(secret, run).succeeded
    ensures var before := PlatformIn(ReadOf(secret, true)).baseDomain;
            PlatformIn(ReadOf(EffectOf(secret, run).secret, true)).baseDomain == before <==>
            KeepsBaseDomain(run, before)
  {
    var first, second := ReadOf(secret, run.firstRead), ReadOf(secret, run.secondRead);
    var platform, supplied := WhatIsWritten(run, first, second);
    ReadAfter(secret, run);
    SuppliedPlatform(run, platform, TextsIn(first));
    ResolvedBaseDomain(run.host, run.platform, PlatformIn(first));
  }

  lemma ResolvedBaseDomain(host: Host, flags: PlatformFlags, stored: PlatformConfig)
    requires ResolvePlatformConfig(host, flags, stored).Success?
    ensures ResolvePlatformConfig(host, flags, stored).value.baseDomain ==
            if stored.Enabled() then stored.baseDomain else TrimSpace(flags.baseDomain)
  {}

  // The ACME environment a run asks for when it finds no stored configuration.
  function ACMEFromNothing(flags: PlatformFlags): string {
    if flags.tls != Some(true) then ""
    else if TrimSpace(flags.acmeEnvironment) == "" then PRODUCTION
    else TrimSpace(flags.acmeEnvironment)
  }

  predicate KeepsACME(run: Run, before: string) {
    || run.firstRead
    || ACMEFromNothing(run.platform) == before
    || (ACMEFromNothing(run.platform) == "" && run.secondRead)
  }

  lemma ACMESurvives(secret: Option<SecretData>, run: Run)
    requires SecretSound(secret) && Ordinary(run) && PlatformIn(ReadOf(secret, true)).acmeEnvironment != ""
    requires EffectOf(secret, run).succeeded
    ensures var before := PlatformIn(ReadOf(secret, true)).acmeEnvironment;
            PlatformIn(ReadOf(EffectOf(secret, run).secret, true)).acmeEnvironment == before <==>
            KeepsACME(run, before)
  {
    var first, second := ReadOf(secret, run.firstRead), ReadOf(secret, run.secondRead);
    var platform, supplied := WhatIsWritten(run, first, second);
    ReadAfter(secret, run);
    SuppliedPlatform(run, platform, TextsIn(first));
    ResolvedACME(run.host, run.platform, PlatformIn(first));
  }

  lemma ResolvedACME(host: Host, flags: PlatformFlags, stored: PlatformConfig)
    requires Sound(stored) && ResolvePlatformConfig(host, flags, stored).Success?
    ensures var acme := ResolvePlatformConfig(host, flags, stored).value.acmeEnvironment;
            && (stored.acmeEnvironment != "" ==> acme == stored.acmeEnvironment)
            && (stored == NO_PLATFORM ==> acme == ACMEFromNothing(flags))
  {}

  // The passwords, all four of them, hang on the second read.
  predicate KeepsPasswords(run: Run, before: Passwords) {
    run.kind.Upgrade? || run.secondRead || run.generated == before
  }

  lemma PasswordsSurvive(secret: Option<SecretData>, run: Run)
    requires SecretSound(secret) && Ordinary(run) && secret.Some?
    requires EffectOf(secret, run).succeeded
    ensures var before, after := ReadOf(secret, true), ReadOf(EffectOf(secret, run).secret, true);
            && after.Some?
            && (after.value.passwords == before.value.passwords <==> KeepsPasswords(run, before.value.passwords))
  {
    var platform, supplied := WhatIsWritten(run, ReadOf(secret, run.firstRead), ReadOf(secret, run.secondRead));
    ReadAfter(secret, run);
  }

  // The shared compute credentials a run supplies when it finds none stored.
  function SharedFromNothing(run: Run): SharedCompute {
    if TrimSpace(run.platform.baseDomain) != "" && run.extracted.Some? then run.extracted.value
    else SharedCompute("", "", "")
  }

  function MergedShared(given: SharedCompute, stored: SharedCompute): SharedCompute {
    SharedCompute(MergedText(given.url, stored.url), MergedText(given.caData, stored.caData),
                  MergedText(given.token, stored.token))
  }

  predicate KeepsShared(run: Run, before: SharedCompute) {
    || run.firstRead
    || SharedFromNothing(run) == before
    || (run.secondRead && MergedShared(SharedFromNothing(run), before) == before)
  }

  lemma SharedComputeSurvives(secret: Option<SecretData>, run: Run)
    requires SecretSound(secret) && Ordinary(run) && SharedOf(TextsIn(ReadOf(secret, true))).IsSet()
    requires EffectOf(secret, run).succeeded
    ensures var before := SharedOf(TextsIn(ReadOf(secret, true)));
            SharedOf(TextsIn(ReadOf(EffectOf(secret, run).secret, true))) == before <==> KeepsShared(run, before)
  {
    var first, second := ReadOf(secret, run.firstRead), ReadOf(secret, run.secondRead);
    SharedIsWritten(run, first, second);
    ReadAfter(secret, run);
  }

  lemma SharedIsWritten(run: Run, first: Option<Bootstrap>, second: Option<Bootstrap>)
    requires !IntentOf(run, first, second).Stop?
    requires first.Some? ==> SharedOf(first.value.texts).IsSet()
    ensures var intent, existing := IntentOf(run, first, second), TextsIn(ExistingFor(run, first, second));
            var given := if first.Some? then SharedOf(first.value.texts) else SharedFromNothing(run);
            SharedOf(if intent.Write? then intent.values.texts else existing) == MergedShared(given, SharedOf(existing))
  {
    var platform, supplied := WhatIsWritten(run, first, second);
    SuppliedPlatform(run, platform, TextsIn(first));
    ResolvedBaseDomain(run.host, run.platform, PlatformIn(first));
  }

  // ---- What is stored is what was meant ----

  // Every text the run writes comes back from its scalar as it went in.
  predicate WritesKept(secret: Option<SecretData>, run: Run) {
    Intended(secret, run).Write? ==> KeptTexts(run.host.scalar, Intended(secret, run).values.texts)
  }

  // A run that writes stores exactly what it meant to, if and only if every
  // value comes back as it went in.
  lemma StoredAsMeant(secret: Option<SecretData>, run: Run)
    requires SecretSound(secret) && Ordinary(run) && EffectOf(secret, run).written
    ensures ReadOf(EffectOf(secret, run).secret, true) == Some(Intended(secret, run).values) <==>
            KeptAll(run.host.scalar, Intended(secret, run).values)
  {
    var values := Intended(secret, run).values;
    CompleteIsWritten(run, ReadOf(secret, run.firstRead), ReadOf(secret, run.secondRead));
    SwitchIsKept(run.host);
    RenderedIsRead(run.host.scalar, values);
    assert EffectOf(secret, run).secret == Render(run.host.scalar, values);
  }

  lemma CompleteIsWritten(run: Run, first: Option<Bootstrap>, second: Option<Bootstrap>)
    requires StoredSound(first) && StoredSound(second) && IntentOf(run, first, second).Write?
    ensures IntentOf(run, first, second).values.passwords.Complete()
  {
    var platform, supplied := WhatIsWritten(run, first, second);
  }

  lemma WrittenIsRead(secret: Option<SecretData>, run: Run)
    requires SecretSound(secret) && Ordinary(run) && EffectOf(secret, run).written && WritesKept(secret, run)
    ensures var after, values := ReadOf(EffectOf(secret, run).secret, true), Intended(secret, run).values;
            after.Some? && after.value == values.(adminEmail := after.value.adminEmail)
  {
    var values := Intended(secret, run).values;
    SoundIsWritten(run, ReadOf(secret, run.firstRead), ReadOf(secret, run.secondRead));
    FieldsKept(run.host, values);
    KeptButEmailIsRead(run.host.scalar, values);
    assert EffectOf(secret, run).secret == Render(run.host.scalar, values);
  }

  // So a run that succeeds stores what it supplied over what it took to exist.
  // It resolves against its first read; the platform stored is the one resolved,
  // unless only the second read found a secret.
  lemma SuccessStores(secret: Option<SecretData>, run: Run) returns (platform: PlatformConfig, supplied: Texts)
    requires SecretSound(secret) && Ordinary(run) && WritesKept(secret, run)
    requires EffectOf(secret, run).succeeded
    ensures var first, existing := ReadOf(secret, run.firstRead), ExistingIn(secret, run);
            var after := ReadOf(EffectOf(secret, run).secret, true);
            && ResolvePlatformConfig(run.host, run.platform, PlatformIn(first)) == Success(platform)
            && SuppliedTexts(run, platform, TextsIn(first)) == Some(supplied)
            && after.Some? && TextsIn(after) == MergedTexts(supplied, TextsIn(existing))
            && after.value.passwords == (if existing.Some? then existing.value.passwords else run.generated)
            && (run.firstRead || existing.None? ==> PlatformIn(after) == platform)
  {
    var first, existing := ReadOf(secret, run.firstRead), ExistingIn(secret, run);
    platform, supplied := WhatIsWritten(run, first, ReadOf(secret, run.secondRead));
    if EffectOf(secret, run).written {
      WrittenIsRead(secret, run);
    }
    SuppliedPlatform(run, platform, TextsIn(first));
    ResolvedHasNoGaps(run.host, run.platform, PlatformIn(first));
    if run.firstRead || existing.None? {
      PlatformIsMerged(platform, supplied, TextsIn(existing));
    }
  }

  lemma PlatformIsMerged(platform: PlatformConfig, supplied: Texts, stored: Texts)
    requires supplied.baseDomain == platform.baseDomain && supplied.cloudflareToken == platform.cloudflareToken
    requires supplied.acmeEnvironment == platform.acmeEnvironment
    requires platform.baseDomain == "" ==> stored.baseDomain == ""
    requires platform.cloudflareToken == "" ==> stored.cloudflareToken == ""
    requires platform.acmeEnvironment == "" ==> stored.acmeEnvironment == ""
    ensures var merged := MergedTexts(supplied, stored);
            && merged.baseDomain == platform.baseDomain && merged.cloudflareToken == platform.cloudflareToken
            && merged.acmeEnvironment == platform.acmeEnvironment
  {}

  // ---- Repeating a run ----

  // Repeating a run that stored what it meant writes nothing.
  lemma RepeatWritesNothing(secret: Option<SecretData>, run: Run)
    requires SecretSound(secret) && Ordinary(run) && ReadsAnswer(run) && WritesKept(secret, run)
    requires EffectOf(secret, run).succeeded
    ensures EffectOf(EffectOf(secret, run).secret, run) == Effect(EffectOf(secret, run).secret, true, false)
  {
    var platform, supplied := SuccessStores(secret, run);
    NothingNew(run, ReadOf(secret, true), ReadOf(EffectOf(secret, run).secret, true), platform, supplied);
    LeavesAsIs(EffectOf(secret, run).secret, run);
  }

  lemma LeavesAsIs(secret: Option<SecretData>, run: Run)
    requires Intended(secret, run) == LeaveAsIs
    ensures EffectOf(secret, run) == Effect(secret, true, false)
  {}

  lemma NothingNew(run: Run, before: Option<Bootstrap>, after: Option<Bootstrap>, platform: PlatformConfig,
                   supplied: Texts)
    requires run.prepared && after.Some?
    requires ResolvePlatformConfig(run.host, run.platform, PlatformIn(before)) == Success(platform)
    requires SuppliedTexts(run, platform, TextsIn(before)) == Some(supplied)
    requires TextsIn(after) == MergedTexts(supplied, TextsIn(before)) && PlatformIn(after) == platform
    ensures IntentOf(run, after, after) == LeaveAsIs
  {
    ResolvingTwice(run.host, run.platform, PlatformIn(before));
    SuppliedAgain(run, platform, TextsIn(before), TextsIn(after));
  }

  // Run again on what it stored, a run supplies nothing that is not stored.
  lemma SuppliedAgain(run: Run, platform: PlatformConfig, before: Texts, after: Texts)
    requires SuppliedTexts(run, platform, before).Some?
    requires after == MergedTexts(SuppliedTexts(run, platform, before).value, before)
    requires after.baseDomain == platform.baseDomain
             && after.cloudflareToken == platform.cloudflareToken && after.acmeEnvironment == platform.acmeEnvironment
    ensures SuppliedTexts(run, platform, after).Some?
    ensures MergedTexts(SuppliedTexts(run, platform, after).value, after) == after
  {}

  // The texts a run is given come back from their scalars: the GitHub flags,
  // but for the key file, and the token.
  predicate GivenKept(run: Run) {
    && Kept(run.host.scalar, run.github.clientID) && Kept(run.host.scalar, run.github.clientSecret)
    && Kept(run.host.scalar, run.github.appID) && Kept(run.host.scalar, run.github.appSlug)
    && Kept(run.host.scalar, run.github.appWebhookSecret)
    && (run.platform.tokenFile != "" && run.host.files(run.platform.tokenFile).Some? ==>
          Kept(run.host.scalar, TrimSpace(run.host.files(run.platform.tokenFile).value)))
  }

  // With TLS on, the token that is written does not come back empty.
  predicate TokenLives(secret: Option<SecretData>, run: Run) {
    Intended(secret, run).Write? && Intended(secret, run).values.tls ==>
      run.host.scalar(Intended(secret, run).values.texts.cloudflareToken) != Some("")
  }

  // Exactly when repeating a run that succeeded writes nothing: it had written
  // nothing itself, or what it is given comes back and the token lives.
  lemma RepeatExactly(secret: Option<SecretData>, run: Run)
    requires SecretSound(secret) && Ordinary(run) && ReadsAnswer(run) && EffectOf(secret, run).succeeded
    ensures EffectOf(EffectOf(secret, run).secret, run) == Effect(EffectOf(secret, run).secret, true, false) <==>
            Intended(secret, run).LeaveAsIs? || (GivenKept(run) && TokenLives(secret, run))
  {
    var after := EffectOf(secret, run).secret;
    if Intended(secret, run).Write? {
      if GivenKept(run) && TokenLives(secret, run) {
        KeptLeavesAsIs(secret, run);
        LeavesAsIs(after, run);
      } else if EffectOf(after, run) == Effect(after, true, false) {
        RepeatNeedsKept(secret, run);
      }
    }
  }

  lemma KeptLeavesAsIs(secret: Option<SecretData>, run: Run)
    requires SecretSound(secret) && Ordinary(run) && ReadsAnswer(run) && EffectOf(secret, run).written
    requires GivenKept(run) && TokenLives(secret, run)
    ensures Intended(EffectOf(secret, run).secret, run).LeaveAsIs?
  {
    var stored, after := ReadOf(secret, true), EffectOf(secret, run).secret;
    var values := Intended(secret, run).values;
    var platform, supplied := WhatIsWritten(run, stored, stored);
    ReadAfter(secret, run);
    ReadThroughScalars(run, values, after);
    ThroughScalarsAgain(run, stored, platform, supplied, values, ReadOf(after, true).value);
  }

  // Run again on what the scalars made of what it wrote, a run finds nothing to write.
  lemma ThroughScalarsAgain(run: Run, stored: Option<Bootstrap>, platform: PlatformConfig, supplied: Texts,
                            values: Bootstrap, again: Bootstrap)
    requires run.prepared && GivenKept(run) && LastingSame(again, values)
    requires ThroughScalars(run.host.scalar, values.texts, again.texts)
    requires ResolvePlatformConfig(run.host, run.platform, PlatformIn(stored)) == Success(platform)
    requires SuppliedTexts(run, platform, TextsIn(stored)) == Some(supplied)
    requires values.texts == MergedTexts(supplied, TextsIn(stored)) && values.tls == platform.tlsEnabled
    requires values.tls ==> again.texts.cloudflareToken != ""
    ensures IntentOf(run, Some(again), Some(again)) == LeaveAsIs
  {
    var token := again.texts.cloudflareToken;
    SuppliedPlatform(run, platform, TextsIn(stored));
    ResolvedHasNoGaps(run.host, run.platform, PlatformIn(stored));
    PlatformIsMerged(platform, supplied, TextsIn(stored));
    assert again.Platform() == platform.(cloudflareToken := token);
    ResolvingWithToken(run.host, run.platform, PlatformIn(stored), token);
    var platform' :=
      platform.(cloudflareToken := if run.platform.tokenFile == "" then token else platform.cloudflareToken);
    SuppliedOnceMore(run, platform, platform', TextsIn(stored), values.texts, again.texts);
    NothingToWrite(run, again, platform');
  }

  lemma NothingToWrite(run: Run, stored: Bootstrap, platform: PlatformConfig)
    requires run.prepared
    requires ResolvePlatformConfig(run.host, run.platform, stored.Platform()) == Success(platform)
    requires SuppliedTexts(run, platform, stored.texts).Some? && platform.tlsEnabled == stored.tls
    requires MergedTexts(SuppliedTexts(run, platform, stored.texts).value, stored.texts) == stored.texts
    ensures IntentOf(run, Some(stored), Some(stored)) == LeaveAsIs
  {}

  // Resolving the same flags again, with another token stored.
  lemma ResolvingWithToken(host: Host, flags: PlatformFlags, stored: PlatformConfig, token: string)
    requires ResolvePlatformConfig(host, flags, stored).Success?
    requires ResolvePlatformConfig(host, flags, stored).value.tlsEnabled ==> token != ""
    ensures var resolved := ResolvePlatformConfig(host, flags, stored).value;
            ResolvePlatformConfig(host, flags, resolved.(cloudflareToken := token)) ==
            Success(resolved.(cloudflareToken := if flags.tokenFile == "" then token else resolved.cloudflareToken))
  {}

  lemma SuppliedOnceMore(run: Run, platform: PlatformConfig, platform': PlatformConfig, stored: Texts, written: Texts,
                         again: Texts)
    requires GivenKept(run) && ThroughScalars(run.host.scalar, written, again)
    requires SuppliedTexts(run, platform, stored).Some?
    requires written == MergedTexts(SuppliedTexts(run, platform, stored).value, stored)
    requires again.baseDomain == written.baseDomain == platform.baseDomain == platform'.baseDomain
    requires again.acmeEnvironment == written.acmeEnvironment == platform.acmeEnvironment == platform'.acmeEnvironment
    requires SharedOf(again) == SharedOf(written)
    requires platform'.cloudflareToken == "" || platform'.cloudflareToken == again.cloudflareToken
    ensures SuppliedTexts(run, platform', again).Some?
    ensures MergedTexts(SuppliedTexts(run, platform', again).value, again) == again
  {
    SuppliedGitHub(run, platform, stored);
    SuppliedPlatform(run, platform, stored);
    SharedOnceMore(platform, SharedOf(stored), SharedOf(written), run.extracted);
    assert platform'.Enabled() == platform.Enabled();
    SuppliedGitHub(run, platform', again);
    SuppliedPlatform(run, platform', again);
  }

  lemma SharedOnceMore(platform: PlatformConfig, stored: SharedCompute, written: SharedCompute,
                       extracted: Option<SharedCompute>)
    requires EnsuredShared(platform, stored, extracted).Some?
    requires written == MergedShared(EnsuredShared(platform, stored, extracted).value, stored)
    ensures EnsuredShared(platform, written, extracted).Some?
    ensures MergedShared(EnsuredShared(platform, written, extracted).value, written) == written
  {}

  lemma SuppliedGitHub(run: Run, platform: PlatformConfig, stored: Texts)
    requires SuppliedTexts(run, platform, stored).Some?
    ensures var supplied := SuppliedTexts(run, platform, stored).value;
            && supplied.githubClientID == run.github.clientID && supplied.githubClientSecret == run.github.clientSecret
            && supplied.githubAppID == run.github.appID && supplied.githubAppSlug == run.github.appSlug
            && supplied.githubAppWebhookSecret == run.github.appWebhookSecret
            && supplied.githubAppPrivateKey == KeyGiven(run)
  {}

  function KeyGiven(run: Run): string {
    var file := run.github.appKeyFile;
    if file != "" && run.host.files(file).Some? then run.host.files(file).value else ""
  }

  lemma ResolvedGivenToken(host: Host, flags: PlatformFlags, stored: PlatformConfig)
    requires ResolvePlatformConfig(host, flags, stored).Success?
    ensures flags.tokenFile != "" ==> host.files(flags.tokenFile).Some?
    ensures ResolvePlatformConfig(host, flags, stored).value.cloudflareToken ==
            if flags.tokenFile == "" then stored.cloudflareToken else TrimSpace(host.files(flags.tokenFile).value)
  {}

  // If a run wrote, and repeated writes nothing, all that it is given comes back
  // and the token lives.
  lemma RepeatNeedsKept(secret: Option<SecretData>, run: Run)
    requires SecretSound(secret) && Ordinary(run) && ReadsAnswer(run) && EffectOf(secret, run).written
    requires var after := EffectOf(secret, run).secret; EffectOf(after, run) == Effect(after, true, false)
    ensures GivenKept(run) && TokenLives(secret, run)
  {
    var values, after := Intended(secret, run).values, EffectOf(secret, run).secret;
    WrittenGivenKept(secret, run);
    GivenIsIntended(secret, run);
    ReadAfter(secret, run);
    ReadThroughScalars(run, values, after);
    TokenIsNeeded(run, ReadOf(after, true).value);
  }

  // A run on a stored configuration with TLS goes on only with a token.
  lemma TokenIsNeeded(run: Run, stored: Bootstrap)
    requires IntentOf(run, Some(stored), Some(stored)).LeaveAsIs?
    ensures stored.tls ==> stored.texts.cloudflareToken != ""
  {
    var platform, supplied := WhatIsWritten(run, Some(stored), Some(stored));
    AcceptedConfig(run.host, run.platform, stored.Platform());
    SuppliedPlatform(run, platform, stored.texts);
  }

  // Each text a run is given is empty or among these texts.
  predicate GivenAreIn(run: Run, texts: Texts) {
    && run.github.clientID in {"", texts.githubClientID} && run.github.clientSecret in {"", texts.githubClientSecret}
    && run.github.appID in {"", texts.githubAppID} && run.github.appSlug in {"", texts.githubAppSlug}
    && run.github.appWebhookSecret in {"", texts.githubAppWebhookSecret}
    && (run.platform.tokenFile != "" && run.host.files(run.platform.tokenFile).Some? ==>
          TrimSpace(run.host.files(run.platform.tokenFile).value) in {"", texts.cloudflareToken})
  }

  lemma GivenIsStored(secret: Option<SecretData>, run: Run)
    requires ReadsAnswer(run) && Intended(secret, run).LeaveAsIs?
    ensures GivenAreIn(run, TextsIn(ReadOf(secret, true)))
  {
    var stored := ReadOf(secret, true);
    var platform, supplied := WhatIsWritten(run, stored, stored);
    SuppliedPlatform(run, platform, TextsIn(stored));
    SuppliedGitHub(run, platform, TextsIn(stored));
    ResolvedGivenToken(run.host, run.platform, PlatformIn(stored));
  }

  lemma GivenIsIntended(secret: Option<SecretData>, run: Run)
    requires ReadsAnswer(run) && Intended(secret, run).Write?
    ensures GivenAreIn(run, Intended(secret, run).values.texts)
  {
    var stored := ReadOf(secret, true);
    var platform, supplied := WhatIsWritten(run, stored, stored);
    SuppliedPlatform(run, platform, TextsIn(stored));
    SuppliedGitHub(run, platform, TextsIn(stored));
    ResolvedGivenToken(run.host, run.platform, PlatformIn(stored));
  }

  lemma WrittenGivenKept(secret: Option<SecretData>, run: Run)
    requires Ordinary(run) && ReadsAnswer(run) && EffectOf(secret, run).written
    requires Intended(EffectOf(secret, run).secret, run).LeaveAsIs?
    ensures GivenKept(run)
  {
    var values, after := Intended(secret, run).values, EffectOf(secret, run).secret;
    GivenIsIntended(secret, run);
    GivenIsStored(after, run);
    ReadThroughScalars(run, values, after);
    SwitchIsKept(run.host);
  }

  // What the scalars make of the texts; the private key is encoded.
  predicate ThroughScalars(scalar: string -> Option<string>, written: Texts, read: Texts) {
    && scalar(written.githubClientID) == Some(read.githubClientID)
    && scalar(written.githubClientSecret) == Some(read.githubClientSecret)
    && scalar(written.githubAppID) == Some(read.githubAppID)
    && scalar(written.githubAppSlug) == Some(read.githubAppSlug)
    && scalar(written.githubAppWebhookSecret) == Some(read.githubAppWebhookSecret)
    && scalar(written.cloudflareToken) == Some(read.cloudflareToken)
    && written.githubAppPrivateKey == read.githubAppPrivateKey
  }

  lemma ReadThroughScalars(run: Run, values: Bootstrap, after: Option<SecretData>)
    requires after.Some? && after == Render(run.host.scalar, values) && ReadOf(after, true).Some?
    ensures ThroughScalars(run.host.scalar, values.texts, TextsIn(ReadOf(after, true)))
  {
    RenderedEntry(run.host.scalar, values, GitHubClientID);
    RenderedEntry(run.host.scalar, values, GitHubClientSecret);
    RenderedEntry(run.host.scalar, values, GitHubAppID);
    RenderedEntry(run.host.scalar, values, GitHubAppSlug);
    RenderedEntry(run.host.scalar, values, GitHubAppWebhookSecret);
    RenderedEntry(run.host.scalar, values, CloudflareAPIToken);
    RenderedEntry(run.host.scalar, values, GitHubAppPrivateKey);
  }

  // ---- Groups of fields ----

  predicate PlainAppFlags(f: GitHubFlags) {
    Plain(f.appID) && Plain(f.appSlug) && Plain(f.appWebhookSecret)
  }

  // All four GitHub App values are stored, or none, and those that are not
  // encoded are plain.
  predicate AppStored(texts: Texts) {
    AllOrNone(texts) && Plain(texts.githubAppID) && Plain(texts.githubAppSlug) && Plain(texts.githubAppWebhookSecret)
  }

  // The four GitHub App values stay all set or all empty, as long as no key file
  // that is given is empty, whether reads answer or not.
  lemma {:induction false} AppValuesTogether(secret: Option<SecretData>, runs: seq<Run>)
    requires SecretSound(secret) && AppStored(TextsIn(ReadOf(secret, true)))
    requires forall i :: 0 <= i < |runs| ==>
               Ordinary(runs[i]) && PlainAppFlags(runs[i].github) && !GivesEmptyKey(runs[i])
    ensures AppStored(TextsIn(ReadOf(AfterRuns(secret, runs), true)))
    decreases |runs|
  {
    if runs != [] {
      ReadAfter(secret, runs[0]);
      RunKeepsAppValues(secret, runs[0]);
      AppValuesTogether(EffectOf(secret, runs[0]).secret, runs[1..]);
    }
  }

  predicate GivesEmptyKey(run: Run) {
    run.github.appKeyFile != "" && run.host.files(run.github.appKeyFile) == Some("")
  }

  lemma RunKeepsAppValues(secret: Option<SecretData>, run: Run)
    requires SecretSound(secret) && AppStored(TextsIn(ReadOf(secret, true)))
    requires Ordinary(run) && PlainAppFlags(run.github) && !GivesEmptyKey(run)
    ensures AppStored(TextsIn(ReadOf(EffectOf(secret, run).secret, true)))
  {
    if EffectOf(secret, run).written {
      NoAppStored();
      AppIsWritten(run, ReadOf(secret, run.firstRead), ReadOf(secret, run.secondRead));
      AppIsReadAfter(secret, run);
    }
  }

  lemma AppIsReadAfter(secret: Option<SecretData>, run: Run)
    requires HostRules(run.host) && EffectOf(secret, run).written && AppStored(Intended(secret, run).values.texts)
    ensures AppStored(TextsIn(ReadOf(EffectOf(secret, run).secret, true)))
  {
    var values, after := Intended(secret, run).values, EffectOf(secret, run).secret;
    AppIsRead(run.host, values);
    assert after == Render(run.host.scalar, values);
    NoAppStored();
  }

  lemma NoAppStored()
    ensures AppStored(NO_TEXTS)
  {}

  lemma AppIsWritten(run: Run, first: Option<Bootstrap>, second: Option<Bootstrap>)
    requires AppStored(TextsIn(ExistingFor(run, first, second))) && IntentOf(run, first, second).Write?
    requires PlainAppFlags(run.github) && !GivesEmptyKey(run)
    ensures AppStored(IntentOf(run, first, second).values.texts)
  {
    var platform, supplied := WhatIsWritten(run, first, second);
    SuppliedGitHub(run, platform, TextsIn(first));
    ResolvedKey(run);
    AppMerge(supplied, TextsIn(ExistingFor(run, first, second)));
  }

  // A key file that is given can be read, or the run stops.
  lemma ResolvedKey(run: Run)
    requires GitHubResult(run.host, run.github).None?
    ensures run.github.appKeyFile != "" ==> run.host.files(run.github.appKeyFile).Some?
    ensures AppFlagsTogether(run.github)
  {}

  lemma AppMerge(given: Texts, stored: Texts)
    requires AppStored(given) && AppStored(stored)
    ensures AppStored(MergedTexts(given, stored))
  {}

  lemma AppIsRead(host: Host, b: Bootstrap)
    requires HostRules(host) && AppStored(b.texts) && Render(host.scalar, b).Some?
    ensures AppStored(Decoded(Render(host.scalar, b).value).texts)
  {
    PlainIsRead(host, b, GitHubAppID);
    PlainIsRead(host, b, GitHubAppSlug);
    PlainIsRead(host, b, GitHubAppWebhookSecret);
    RenderedEntry(host.scalar, b, GitHubAppPrivateKey);
  }

  // Exactly when one run breaks the group: it reads an empty key file, and finds
  // no key stored, or does not look.
  lemma EmptyKeyFile(secret: Option<SecretData>, run: Run)
    requires SecretSound(secret) && Ordinary(run) && WritesKept(secret, run)
    requires EffectOf(secret, run).succeeded && AllOrNone(TextsIn(ReadOf(secret, true)))
    ensures AllOrNone(TextsIn(ReadOf(EffectOf(secret, run).secret, true))) <==>
            !(GivesEmptyKey(run) && (TextsIn(ReadOf(secret, true)).githubAppPrivateKey == "" ||
                                     (run.kind.Install? && !run.secondRead)))
  {
    var platform, supplied := SuccessStores(secret, run);
    SuppliedGitHub(run, platform, TextsIn(ReadOf(secret, run.firstRead)));
    ResolvedKey(run);
    GroupMerge(run, supplied, TextsIn(ExistingIn(secret, run)));
  }

  lemma GroupMerge(run: Run, supplied: Texts, stored: Texts)
    requires AppFlagsTogether(run.github) && AllOrNone(stored)
    requires run.github.appKeyFile != "" ==> run.host.files(run.github.appKeyFile).Some?
    requires supplied.githubAppID == run.github.appID && supplied.githubAppSlug == run.github.appSlug
    requires supplied.githubAppWebhookSecret == run.github.appWebhookSecret
    requires supplied.githubAppPrivateKey == KeyGiven(run)
    ensures AllOrNone(MergedTexts(supplied, stored)) <==> !(GivesEmptyKey(run) && stored.githubAppPrivateKey == "")
  {}

  // After a run that succeeds, each GitHub value is the one given, or else the
  // one the run took to exist.
  lemma GitHubValuesStored(secret: Option<SecretData>, run: Run)
    requires SecretSound(secret) && Ordinary(run) && WritesKept(secret, run)
    requires EffectOf(secret, run).succeeded
    ensures var before, after := TextsIn(ExistingIn(secret, run)), TextsIn(ReadOf(EffectOf(secret, run).secret, true));
            var key := KeyGiven(run);
            && after.githubClientID == MergedText(run.github.clientID, before.githubClientID)
            && after.githubClientSecret == MergedText(run.github.clientSecret, before.githubClientSecret)
            && after.githubAppID == MergedText(run.github.appID, before.githubAppID)
            && after.githubAppSlug == MergedText(run.github.appSlug, before.githubAppSlug)
            && after.githubAppPrivateKey == MergedText(key, before.githubAppPrivateKey)
            && after.githubAppWebhookSecret == MergedText(run.github.appWebhookSecret, before.githubAppWebhookSecret)
  {
    var platform, supplied := SuccessStores(secret, run);
    SuppliedGitHub(run, platform, TextsIn(ReadOf(secret, run.firstRead)));
  }

  // What a run is given for the admin email; an upgrade has none to give.
  function EmailGiven(run: Run): string {
    if run.kind.Install? then run.kind.email else ""
  }

  // The admin email changes when the run is given another one and writes for
  // another reason: a new email alone is not a difference. An install that finds
  // nothing replaces it outright.
  predicate EmailRule(run: Run, existing: Option<Bootstrap>, before: Bootstrap, after: Bootstrap) {
    after.adminEmail != before.adminEmail <==>
    && EmailGiven(run) != before.adminEmail
    && (existing.Some? ==> EmailGiven(run) != "" && (after.texts != before.texts || after.tls != before.tls))
  }

  lemma EmailFollowsOtherChanges(secret: Option<SecretData>, run: Run)
    requires SecretSound(secret) && Ordinary(run) && secret.Some? && EffectOf(secret, run).succeeded
    requires WritesAllKept(secret, run)
    ensures var before, after := ReadOf(secret, true), ReadOf(EffectOf(secret, run).secret, true);
            after.Some? && EmailRule(run, ExistingIn(secret, run), before.value, after.value)
  {
    var first, second := ReadOf(secret, run.firstRead), ReadOf(secret, run.secondRead);
    AfterIsIntended(secret, run);
    EmailIsIntended(run, first, second, ReadOf(secret, true).value);
  }

  lemma EmailIsIntended(run: Run, first: Option<Bootstrap>, second: Option<Bootstrap>, stored: Bootstrap)
    requires !IntentOf(run, first, second).Stop?
    requires ExistingFor(run, first, second) in {None, Some(stored)}
    ensures var intent, existing := IntentOf(run, first, second), ExistingFor(run, first, second);
            EmailRule(run, existing, stored, if intent.Write? then intent.values else stored)
  {}

  predicate WritesAllKept(secret: Option<SecretData>, run: Run) {
    Intended(secret, run).Write? ==> KeptAll(run.host.scalar, Intended(secret, run).values)
  }

  lemma AfterIsIntended(secret: Option<SecretData>, run: Run)
    requires SecretSound(secret) && Ordinary(run)
    requires secret.Some? && EffectOf(secret, run).succeeded && WritesAllKept(secret, run)
    ensures var stored, intent := ReadOf(secret, true), Intended(secret, run);
            && !intent.Stop? && stored.Some?
            && ExistingFor(run, ReadOf(secret, run.firstRead), ReadOf(secret, run.secondRead)) ==
               ExistingIn(secret, run)
            && ReadOf(EffectOf(secret, run).secret, true) == if intent.Write? then Some(intent.values) else stored
  {
    if EffectOf(secret, run).written {
      StoredAsMeant(secret, run);
    }
  }

  // After a run that succeeds with a base domain, shared compute is fully
  // configured, if the credentials it would extract are complete.
  lemma SharedComputeIsSet(secret: Option<SecretData>, run: Run)
    requires SecretSound(secret) && Ordinary(run) && ReadsAnswer(run) && EffectOf(secret, run).succeeded
    requires PlatformIn(ReadOf(EffectOf(secret, run).secret, true)).Enabled()
    requires run.extracted.Some? ==>
               run.extracted.value.url != "" && run.extracted.value.caData != "" && run.extracted.value.token != ""
    ensures var shared := SharedOf(TextsIn(ReadOf(EffectOf(secret, run).secret, true)));
            shared.url != "" && shared.caData != "" && shared.token != ""
  {
    var stored := ReadOf(secret, true);
    var platform, supplied := WhatIsWritten(run, stored, stored);
    ReadAfter(secret, run);
    SuppliedPlatform(run, platform, TextsIn(stored));
    ResolvedHasNoGaps(run.host, run.platform, PlatformIn(stored));
  }
}
