// Runs in which a promise of the installer fails.
module InstallerExamples {
  import opened Wrappers
  import opened InstallerPlatform
  import opened InstallerSecrets
  import opened InstallerRuns

  const NO_FLAGS := PlatformFlags("", None, "", "")
  const NO_GITHUB := GitHubFlags("", "", "", "", "", "")
  const STORED_PASSWORDS := Passwords("d", "j", "e", "a")
  const NEW_PASSWORDS: GeneratedPasswords := Passwords("D", "J", "E", "A")

  // A platform that was configured with TLS.
  const CONFIGURED := Bootstrap(STORED_PASSWORDS, "",
                                NO_TEXTS.(baseDomain := "a.b", cloudflareToken := "t", acmeEnvironment := PRODUCTION),
                                true)

  lemma PlainRenders(host: Host, b: Bootstrap)
    requires HostRules(host) && KeptTexts(host.scalar, b.texts) && PlainPasswords(b.passwords) && Plain(b.adminEmail)
    ensures Render(host.scalar, b).Some? && Decoded(Render(host.scalar, b).value) == b
  {
    FieldsKept(host, b);
    assert Kept(host.scalar, b.adminEmail);
    forall key: Key ensures KeptAt(host.scalar, b, key) {}
    KeptIsRead(host.scalar, b);
  }

  lemma ConfiguredIsSound(host: Host)
    requires HostRules(host)
    ensures var secret := Render(host.scalar, CONFIGURED);
            SecretSound(secret) && ReadOf(secret, true) == Some(CONFIGURED)
  {
    assert Plain("d") && Plain("j") && Plain("e") && Plain("a") && Plain("");
    assert Plain("a.b") && Plain("t") && Plain(PRODUCTION);
    PlainRenders(host, CONFIGURED);
  }

  lemma TrimIsNothing(s: string)
    requires s != "" && !IsSpace(s[0]) && !IsSpace(s[|s| - 1])
    ensures TrimSpace(s) == s
  {}

  // An install without flags neither of whose reads answers starts afresh: the
  // base domain is gone, and all four passwords are new.
  function Blind(host: Host): Run {
    Run(Install(""), NO_FLAGS, NO_GITHUB, host, true, false, false, None, NEW_PASSWORDS, true)
  }

  lemma BlindInstallLosesAll(host: Host)
    requires HostRules(host)
    ensures var secret := Render(host.scalar, CONFIGURED);
            var effect := EffectOf(secret, Blind(host));
            && effect.succeeded
            && PlatformIn(ReadOf(secret, true)).baseDomain == "a.b"
            && PlatformIn(ReadOf(effect.secret, true)).baseDomain == ""
            && ReadOf(effect.secret, true).Some?
            && ReadOf(effect.secret, true).value.passwords == NEW_PASSWORDS != STORED_PASSWORDS
  {
    ConfiguredIsSound(host);
    BlindSupplies(host);
    SwitchIsKept(host);
    PlainRenders(host, Bootstrap(NEW_PASSWORDS, "", NO_TEXTS, false));
    assert NEW_PASSWORDS.db != STORED_PASSWORDS.db;
  }

  lemma BlindSupplies(host: Host)
    ensures Supplied(Blind(host), None) == Some(Bootstrap(NEW_PASSWORDS, "", NO_TEXTS, false))
  {
    assert ResolvePlatformConfig(host, NO_FLAGS, NO_PLATFORM) == Success(NO_PLATFORM);
    assert EnsuredShared(NO_PLATFORM, SharedOf(NO_TEXTS), None) == Some(SharedOf(NO_TEXTS));
    assert GitHubResult(host, NO_GITHUB).None?;
  }

  // An install whose first read does not answer, given the base domain again
  // and another ACME environment, replaces the environment.
  function Restaged(host: Host): Run {
    Run(Install(""), PlatformFlags("a.b", Some(true), "f", STAGING), NO_GITHUB, host, true, false, true,
        Some(SharedCompute("u", "c", "s")), NEW_PASSWORDS, true)
  }

  lemma RestagedInstallReplacesACME(host: Host)
    requires HostRules(host) && host.isSubdomain("a.b") && host.files("f") == Some("t")
    ensures var secret := Render(host.scalar, CONFIGURED);
            var effect := EffectOf(secret, Restaged(host));
            && effect.succeeded
            && PlatformIn(ReadOf(secret, true)).acmeEnvironment == PRODUCTION
            && PlatformIn(ReadOf(effect.secret, true)).acmeEnvironment == STAGING
  {
    ConfiguredIsSound(host);
    RestagedIntends(host);
    RestagedIsKept(host);
    PlainRenders(host, RestagedValues());
  }

  function RestagedValues(): Bootstrap {
    RestagedBootstrap().(passwords := STORED_PASSWORDS)
  }

  lemma RestagedIntends(host: Host)
    requires host.isSubdomain("a.b") && host.files("f") == Some("t")
    ensures IntentOf(Restaged(host), None, Some(CONFIGURED)) == Write(RestagedValues())
  {
    RestagedSupplies(host);
    var given := RestagedValues();
    assert MergedTexts(given.texts, CONFIGURED.texts) == given.texts;
    assert STAGING[0] != PRODUCTION[0];
    assert Planned(RestagedBootstrap(), Some(CONFIGURED)) == Write(Merged(given, CONFIGURED));
  }

  function RestagedBootstrap(): Bootstrap {
    Bootstrap(NEW_PASSWORDS, "",
              NO_TEXTS.(baseDomain := "a.b", cloudflareToken := "t", acmeEnvironment := STAGING,
                        clusterAPIURL := "u", clusterCAData := "c", clusterToken := "s"),
              true)
  }

  lemma RestagedSupplies(host: Host)
    requires host.isSubdomain("a.b") && host.files("f") == Some("t")
    ensures Supplied(Restaged(host), None) == Some(RestagedBootstrap())
  {
    TrimIsNothing("a.b");
    TrimIsNothing("t");
    TrimIsNothing(STAGING);
  }

  lemma RestagedIsKept(host: Host)
    requires HostRules(host)
    ensures KeptTexts(host.scalar, RestagedBootstrap().texts)
    ensures PlainPasswords(STORED_PASSWORDS) && Plain("")
  {
    assert Plain("a.b") && Plain("t") && Plain(STAGING) && Plain("u") && Plain("c") && Plain("s") && Plain("");
  }

  // A fresh install given all four GitHub App flags, with an empty key file.
  function EmptyKey(host: Host): Run {
    Run(Install(""), NO_FLAGS, GitHubFlags("", "", "1", "s", "k", "w"), host, true, true, true, None, NEW_PASSWORDS,
        true)
  }

  lemma EmptyKeyInstallBreaksGroup(host: Host)
    requires HostRules(host) && host.files("k") == Some("")
    ensures var effect := EffectOf(None, EmptyKey(host));
            effect.succeeded && !AllOrNone(TextsIn(ReadOf(effect.secret, true)))
  {
    var values := Bootstrap(NEW_PASSWORDS, "",
                            NO_TEXTS.(githubAppID := "1", githubAppSlug := "s", githubAppWebhookSecret := "w"), false);
    assert Supplied(EmptyKey(host), None) == Some(values);
    assert Plain("1") && Plain("s") && Plain("w") && Plain("");
    PlainRenders(host, values);
  }

  // A client secret with a backslash and a t is stored with a tab, so that the
  // same install, repeated, writes again.
  function Escaped(host: Host): Run {
    Run(Install(""), NO_FLAGS, GitHubFlags("", "a\\tb", "", "", "", ""), host, true, true, true, None, NEW_PASSWORDS,
        true)
  }

  lemma EscapedIsWrittenAgain(host: Host)
    requires HostRules(host) && host.scalar("a\\tb") == Some("a\tb")
    ensures var effect := EffectOf(None, Escaped(host));
            && effect.succeeded && TextsIn(ReadOf(effect.secret, true)).githubClientSecret == "a\tb"
            && EffectOf(effect.secret, Escaped(host)) != Effect(effect.secret, true, false)
  {
    EscapedIsStored(host);
    EscapedIsNotKept(host);
    RepeatExactly(None, Escaped(host));
  }

  lemma EscapedIsNotKept(host: Host)
    requires HostRules(host) && host.scalar("a\\tb") == Some("a\tb")
    ensures !GivenKept(Escaped(host))
  {
    assert "a\\tb"[1] != "a\tb"[1];
  }

  lemma EscapedIsStored(host: Host)
    requires HostRules(host) && host.scalar("a\\tb") == Some("a\tb")
    ensures var effect := EffectOf(None, Escaped(host));
            effect.succeeded && TextsIn(ReadOf(effect.secret, true)).githubClientSecret == "a\tb"
  {
    var values := Bootstrap(NEW_PASSWORDS, "", NO_TEXTS.(githubClientSecret := "a\\tb"), false);
    EscapedSupplies(host, values);
    EscapedRenders(host, values);
  }

  lemma EscapedSupplies(host: Host, values: Bootstrap)
    requires values == Bootstrap(NEW_PASSWORDS, "", NO_TEXTS.(githubClientSecret := "a\\tb"), false)
    ensures IntentOf(Escaped(host), None, None) == Write(values)
  {
    assert Supplied(Escaped(host), None) == Some(values);
  }

  lemma EscapedRenders(host: Host, values: Bootstrap)
    requires HostRules(host) && host.scalar("a\\tb") == Some("a\tb")
    requires values == Bootstrap(NEW_PASSWORDS, "", NO_TEXTS.(githubClientSecret := "a\\tb"), false)
    ensures var manifest := Render(host.scalar, values);
            && manifest.Some? && ReadSecret(manifest.value).Some?
            && Decoded(manifest.value).texts.githubClientSecret == "a\tb"
  {
    SwitchIsKept(host);
    forall key: Key ensures Scalar(host.scalar, values, key).Some? {
      assert Plain("D") && Plain("J") && Plain("E") && Plain("A");
    }
    RenderedEntry(host.scalar, values, GitHubClientSecret);
    LastingRead(host, values);
  }
}
