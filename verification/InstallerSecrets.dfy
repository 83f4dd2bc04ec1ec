// The bootstrap secret: what it stores, how it is read and rendered, and how
// supplied values are merged with stored ones.
module InstallerSecrets {
  import opened Wrappers
  import opened InstallerPlatform

  // The twelve strings that flags supply and the secret stores, numbered in the
  // order in which they are merged.
  const FIELD_COUNT: nat := 12

  datatype Texts = Texts(
    githubClientID: string, githubClientSecret: string,
    githubAppID: string, githubAppSlug: string, githubAppPrivateKey: string, githubAppWebhookSecret: string,
    baseDomain: string, cloudflareToken: string, acmeEnvironment: string,
    clusterAPIURL: string, clusterCAData: string, clusterToken: string)
  {
    function Get(f: nat): string
      requires f < FIELD_COUNT
    {
      match f
      case 0 => githubClientID case 1 => githubClientSecret
      case 2 => githubAppID case 3 => githubAppSlug case 4 => githubAppPrivateKey case 5 => githubAppWebhookSecret
      case 6 => baseDomain case 7 => cloudflareToken case 8 => acmeEnvironment
      case 9 => clusterAPIURL case 10 => clusterCAData case _ => clusterToken
    }

    function Set(f: nat, text: string): Texts
      requires f < FIELD_COUNT
    {
      match f
      case 0 => this.(githubClientID := text) case 1 => this.(githubClientSecret := text)
      case 2 => this.(githubAppID := text) case 3 => this.(githubAppSlug := text)
      case 4 => this.(githubAppPrivateKey := text) case 5 => this.(githubAppWebhookSecret := text)
      case 6 => this.(baseDomain := text)
      case 7 => this.(cloudflareToken := text)
      case 8 => this.(acmeEnvironment := text)
      case 9 => this.(clusterAPIURL := text)
      case 10 => this.(clusterCAData := text)
      case _ => this.(clusterToken := text)
    }
  }

  const NO_TEXTS := Texts("", "", "", "", "", "", "", "", "", "", "", "")

  lemma GetAfterSet(texts: Texts, f: nat, text: string)
    requires f < FIELD_COUNT
    ensures forall g: nat :: g < FIELD_COUNT ==> texts.Set(f, text).Get(g) == if g == f then text else texts.Get(g)
  {}

  lemma SameTexts(t: Texts, u: Texts)
    requires forall f: nat :: f < FIELD_COUNT ==> t.Get(f) == u.Get(f)
    ensures t == u
  {
    assert t.Get(0) == u.Get(0) && t.Get(1) == u.Get(1) && t.Get(2) == u.Get(2) && t.Get(3) == u.Get(3);
    assert t.Get(4) == u.Get(4) && t.Get(5) == u.Get(5) && t.Get(6) == u.Get(6) && t.Get(7) == u.Get(7);
    assert t.Get(8) == u.Get(8) && t.Get(9) == u.Get(9) && t.Get(10) == u.Get(10) && t.Get(11) == u.Get(11);
  }

  datatype Passwords = Passwords(db: string, jwt: string, encryption: string, admin: string) {
    predicate Complete() {
      db != "" && jwt != "" && encryption != "" && admin != ""
    }
  }

  datatype Bootstrap = Bootstrap(passwords: Passwords, adminEmail: string, texts: Texts, tls: bool) {
    function Platform(): PlatformConfig {
      PlatformConfig(texts.baseDomain, tls, texts.cloudflareToken, texts.acmeEnvironment)
    }
  }

  // ---- Reading and rendering ----

  datatype Key =
    | GitHubClientID | GitHubClientSecret | GitHubAppID | GitHubAppSlug | GitHubAppPrivateKey | GitHubAppWebhookSecret
    | BaseDomain | CloudflareAPIToken | ACMEEnvironment | ClusterAPIURL | ClusterCAData | ClusterToken
    | TLSEnabled | DBPassword | JWTSecret | EncryptionKey | AdminPassword | AdminEmail

  // A stored value decodes or is not valid base64.
  datatype Entry = Encoded(text: string) | NotBase64

  type SecretData = map<Key, Entry>

  function Decode(data: SecretData, key: Key): string {
    if key in data && data[key].Encoded? then data[key].text else ""
  }

  function DecodePasswords(data: SecretData): Passwords {
    Passwords(Decode(data, DBPassword), Decode(data, JWTSecret), Decode(data, EncryptionKey),
              Decode(data, AdminPassword))
  }

  // TLS counts as enabled for a base domain stored before the TLS entry existed.
  function DecodeTLS(data: SecretData): bool {
    if TLSEnabled in data then Decode(data, TLSEnabled) == "true" else Decode(data, BaseDomain) != ""
  }

  function Decoded(data: SecretData): Bootstrap {
    Bootstrap(DecodePasswords(data), Decode(data, AdminEmail), DecodeTexts(data), DecodeTLS(data))
  }

  // A secret without all four passwords does not count as one.
  function ReadSecret(data: SecretData): Option<Bootstrap> {
    if DecodePasswords(data).Complete() then Some(Decoded(data)) else None
  }

  function DecodeTexts(data: SecretData): Texts {
    Texts(
      Decode(data, GitHubClientID), Decode(data, GitHubClientSecret),
      Decode(data, GitHubAppID), Decode(data, GitHubAppSlug), Decode(data, GitHubAppPrivateKey),
          Decode(data, GitHubAppWebhookSecret),
      Decode(data, BaseDomain), Decode(data, CloudflareAPIToken), Decode(data, ACMEEnvironment),
      Decode(data, ClusterAPIURL), Decode(data, ClusterCAData), Decode(data, ClusterToken))
  }

  // A secret can be read exactly when all four passwords are stored and decode to something.
  lemma ReadableExactly(data: SecretData)
    ensures ReadSecret(data).Some? <==>
            && Decode(data, DBPassword) != "" && Decode(data, JWTSecret) != ""
            && Decode(data, EncryptionKey) != "" && Decode(data, AdminPassword) != ""
  {}

  // The value the manifest template puts under each key.
  function Rendered(b: Bootstrap, key: Key): string {
    match key
    case DBPassword => b.passwords.db
    case JWTSecret => b.passwords.jwt
    case EncryptionKey => b.passwords.encryption
    case AdminPassword => b.passwords.admin
    case AdminEmail => b.adminEmail
    case GitHubClientID => b.texts.githubClientID
    case GitHubClientSecret => b.texts.githubClientSecret
    case GitHubAppID => b.texts.githubAppID
    case GitHubAppSlug => b.texts.githubAppSlug
    case GitHubAppPrivateKey => b.texts.githubAppPrivateKey
    case GitHubAppWebhookSecret => b.texts.githubAppWebhookSecret
    case BaseDomain => b.texts.baseDomain
    case TLSEnabled => if b.tls then "true" else "false"
    case CloudflareAPIToken => b.texts.cloudflareToken
    case ACMEEnvironment => b.texts.acmeEnvironment
    case ClusterAPIURL => b.texts.clusterAPIURL
    case ClusterCAData => b.texts.clusterCAData
    case ClusterToken => b.texts.clusterToken
  }

  // The template puts every value between double quotes as it is, but for the
  // private key, which is encoded as a JSON string.
  function Scalar(scalar: string -> Option<string>, b: Bootstrap, key: Key): Option<string> {
    if key.GitHubAppPrivateKey? then Some(Rendered(b, key)) else scalar(Rendered(b, key))
  }

  // What the manifest stores, or None if it cannot be read as YAML.
  function Render(scalar: string -> Option<string>, b: Bootstrap): Option<SecretData> {
    if forall key: Key :: Scalar(scalar, b, key).Some? then
      Some(map key: Key | true :: Encoded(Scalar(scalar, b, key).value))
    else None
  }

  predicate KeptAt(scalar: string -> Option<string>, b: Bootstrap, key: Key) {
    Scalar(scalar, b, key) == Some(Rendered(b, key))
  }

  predicate KeptAll(scalar: string -> Option<string>, b: Bootstrap) {
    forall key: Key :: KeptAt(scalar, b, key)
  }

  lemma RenderedEntry(scalar: string -> Option<string>, b: Bootstrap, key: Key)
    requires Render(scalar, b).Some?
    ensures key in Render(scalar, b).value
    ensures Scalar(scalar, b, key) == Some(Decode(Render(scalar, b).value, key))
  {}

  predicate Agrees(b: Bootstrap, data: SecretData, key: Key) {
    Decode(data, key) == Rendered(b, key)
  }

  // Reading a rendered secret recovers everything it was rendered from exactly
  // when every value comes back from its scalar as it went in.
  lemma RenderedIsRead(scalar: string -> Option<string>, b: Bootstrap)
    requires Kept(scalar, "true") && Kept(scalar, "false")
    ensures Render(scalar, b).Some? && ReadSecret(Render(scalar, b).value) == Some(b) <==>
            b.passwords.Complete() && KeptAll(scalar, b)
  {
    if KeptAll(scalar, b) {
      KeptIsRead(scalar, b);
    }
    if Render(scalar, b).Some? && Decoded(Render(scalar, b).value) == b {
      ReadIsKept(scalar, b);
    }
  }

  lemma KeptIsRead(scalar: string -> Option<string>, b: Bootstrap)
    requires KeptAll(scalar, b)
    ensures Render(scalar, b).Some? && Decoded(Render(scalar, b).value) == b
  {
    forall key: Key ensures Scalar(scalar, b, key).Some? {
      assert KeptAt(scalar, b, key);
    }
    KeptButEmailIsRead(scalar, b);
    RenderedEntry(scalar, b, AdminEmail);
    assert KeptAt(scalar, b, AdminEmail);
  }

  predicate KeptButEmail(scalar: string -> Option<string>, b: Bootstrap) {
    forall key: Key :: key != AdminEmail ==> KeptAt(scalar, b, key)
  }

  lemma KeptButEmailIsRead(scalar: string -> Option<string>, b: Bootstrap)
    requires KeptButEmail(scalar, b) && Render(scalar, b).Some?
    ensures Decoded(Render(scalar, b).value) ==
            b.(adminEmail := Decode(Render(scalar, b).value, AdminEmail))
  {
    var data := Render(scalar, b).value;
    forall key: Key ensures key in data && (key != AdminEmail ==> Decode(data, key) == Rendered(b, key)) {
      RenderedEntry(scalar, b, key);
      assert key != AdminEmail ==> KeptAt(scalar, b, key);
    }
    AllAgree(b, data);
  }

  lemma ReadIsKept(scalar: string -> Option<string>, b: Bootstrap)
    requires Kept(scalar, "true") && Kept(scalar, "false")
    requires Render(scalar, b).Some? && Decoded(Render(scalar, b).value) == b
    ensures KeptAll(scalar, b)
  {
    var data := Render(scalar, b).value;
    SwitchIsRead(scalar, b);
    DecodedAgrees(b, data);
    forall key: Key ensures KeptAt(scalar, b, key) {
      AgreesIsKept(scalar, b, key);
    }
  }

  lemma SwitchIsRead(scalar: string -> Option<string>, b: Bootstrap)
    requires Kept(scalar, "true") && Kept(scalar, "false") && Render(scalar, b).Some?
    ensures var data := Render(scalar, b).value;
            TLSEnabled in data && Decode(data, TLSEnabled) == if b.tls then "true" else "false"
  {
    RenderedEntry(scalar, b, TLSEnabled);
  }

  lemma AgreesIsKept(scalar: string -> Option<string>, b: Bootstrap, key: Key)
    requires Render(scalar, b).Some? && Agrees(b, Render(scalar, b).value, key)
    ensures KeptAt(scalar, b, key)
  {
    RenderedEntry(scalar, b, key);
  }

  // A secret from before the TLS entry existed: it reads as the same values, with
  // TLS on just when it has a base domain. Any entry but "true" turns TLS off.
  lemma OlderSecretIsRead(scalar: string -> Option<string>, b: Bootstrap)
    requires KeptAll(scalar, b)
    ensures Render(scalar, b).Some?
    ensures SwitchedAs(Render(scalar, b).value, b)
  {
    KeptIsRead(scalar, b);
    SwitchDecides(Render(scalar, b).value, b);
  }

  ghost predicate SwitchedAs(data: SecretData, b: Bootstrap) {
    && Decoded(data - {TLSEnabled}) == b.(tls := b.texts.baseDomain != "")
    && Decoded(data[TLSEnabled := NotBase64]) == b.(tls := false)
    && (forall text :: Decoded(data[TLSEnabled := Encoded(text)]) == b.(tls := text == "true"))
  }

  lemma SwitchDecides(data: SecretData, b: Bootstrap)
    requires Decoded(data) == b
    ensures SwitchedAs(data, b)
  {
    WithoutSwitch(data, b);
    WithSwitch(data, b, NotBase64);
    forall text ensures Decoded(data[TLSEnabled := Encoded(text)]) == b.(tls := text == "true") {
      WithSwitch(data, b, Encoded(text));
    }
  }

  lemma WithoutSwitch(data: SecretData, b: Bootstrap)
    requires Decoded(data) == b
    ensures Decoded(data - {TLSEnabled}) == b.(tls := b.texts.baseDomain != "")
  {
    SwitchRemoved(data);
    OnlySwitchDiffers(data, data - {TLSEnabled});
    assert Decode(data, BaseDomain) == b.texts.baseDomain;
  }

  lemma SwitchRemoved(data: SecretData)
    ensures var other := data - {TLSEnabled};
            && (forall key: Key :: key != TLSEnabled ==> Decode(data, key) == Decode(other, key))
            && DecodeTLS(other) == (Decode(data, BaseDomain) != "")
  {}

  lemma SwitchReplaced(data: SecretData, entry: Entry)
    ensures var other := data[TLSEnabled := entry];
            && (forall key: Key :: key != TLSEnabled ==> Decode(data, key) == Decode(other, key))
            && DecodeTLS(other) == (entry == Encoded("true"))
  {}

  lemma WithSwitch(data: SecretData, b: Bootstrap, entry: Entry)
    requires Decoded(data) == b
    ensures Decoded(data[TLSEnabled := entry]) == b.(tls := entry == Encoded("true"))
  {
    SwitchReplaced(data, entry);
    OnlySwitchDiffers(data, data[TLSEnabled := entry]);
  }

  lemma OnlySwitchDiffers(data: SecretData, other: SecretData)
    requires forall key: Key :: key != TLSEnabled ==> Decode(data, key) == Decode(other, key)
    ensures Decoded(other) == Decoded(data).(tls := DecodeTLS(other))
  {}

  lemma AllAgree(b: Bootstrap, data: SecretData)
    requires TLSEnabled in data && Decode(data, TLSEnabled) == Rendered(b, TLSEnabled)
    requires forall key: Key :: key != AdminEmail ==> Decode(data, key) == Rendered(b, key)
    ensures Decoded(data) == b.(adminEmail := Decode(data, AdminEmail))
  {
    TextsAgree(b, data);
    PasswordsAgree(b, data);
    SwitchAgrees(b, data);
  }

  lemma SwitchAgrees(b: Bootstrap, data: SecretData)
    requires TLSEnabled in data && Decode(data, TLSEnabled) == Rendered(b, TLSEnabled)
    ensures DecodeTLS(data) == b.tls
  {
    SwitchIsPlain();
  }

  lemma PasswordsAgree(b: Bootstrap, data: SecretData)
    requires forall key: Key :: key != AdminEmail ==> Decode(data, key) == Rendered(b, key)
    ensures DecodePasswords(data) == b.passwords
  {}

  lemma TextsAgree(b: Bootstrap, data: SecretData)
    requires forall key: Key :: key != AdminEmail ==> Decode(data, key) == Rendered(b, key)
    ensures DecodeTexts(data) == b.texts
  {}

  lemma DecodedAgrees(b: Bootstrap, data: SecretData)
    requires Decoded(data) == b && TLSEnabled in data
    requires Decode(data, TLSEnabled) == "true" || Decode(data, TLSEnabled) == "false"
    ensures forall key: Key :: Agrees(b, data, key)
  {}

  // ---- Values that are stored as they are ----

  predicate PlainPasswords(p: Passwords) {
    Plain(p.db) && Plain(p.jwt) && Plain(p.encryption) && Plain(p.admin)
  }

  predicate PlainShared(texts: Texts) {
    Plain(texts.clusterAPIURL) && Plain(texts.clusterCAData) && Plain(texts.clusterToken)
  }

  // The values that no run is meant to change are plain.
  predicate LastingPlain(b: Bootstrap) {
    PlainPasswords(b.passwords) && Plain(b.texts.baseDomain) && Plain(b.texts.acmeEnvironment) && PlainShared(b.texts)
  }

  predicate LastingSame(a: Bootstrap, b: Bootstrap) {
    && a.passwords == b.passwords && a.tls == b.tls
    && a.texts.baseDomain == b.texts.baseDomain && a.texts.acmeEnvironment == b.texts.acmeEnvironment
    && a.texts.clusterAPIURL == b.texts.clusterAPIURL && a.texts.clusterCAData == b.texts.clusterCAData
    && a.texts.clusterToken == b.texts.clusterToken
  }

  // Whatever becomes of other values, plain ones are read back.
  lemma LastingRead(host: Host, b: Bootstrap)
    requires HostRules(host) && LastingPlain(b) && Render(host.scalar, b).Some?
    ensures LastingSame(Decoded(Render(host.scalar, b).value), b)
  {
    PasswordsRead(host, b);
    PlatformRead(host, b);
    SharedRead(host, b);
  }

  lemma PasswordsRead(host: Host, b: Bootstrap)
    requires HostRules(host) && PlainPasswords(b.passwords) && Render(host.scalar, b).Some?
    ensures DecodePasswords(Render(host.scalar, b).value) == b.passwords
  {
    PlainIsRead(host, b, DBPassword);
    PlainIsRead(host, b, JWTSecret);
    PlainIsRead(host, b, EncryptionKey);
    PlainIsRead(host, b, AdminPassword);
  }

  lemma PlatformRead(host: Host, b: Bootstrap)
    requires HostRules(host) && Plain(b.texts.baseDomain) && Plain(b.texts.acmeEnvironment)
    requires Render(host.scalar, b).Some?
    ensures var data := Render(host.scalar, b).value;
            && DecodeTLS(data) == b.tls
            && DecodeTexts(data).baseDomain == b.texts.baseDomain
            && DecodeTexts(data).acmeEnvironment == b.texts.acmeEnvironment
  {
    SwitchIsPlain();
    PlainIsRead(host, b, TLSEnabled);
    PlainIsRead(host, b, BaseDomain);
    PlainIsRead(host, b, ACMEEnvironment);
  }

  lemma SwitchIsPlain()
    ensures Plain("true") && Plain("false") && "true" != "false"
  {
    assert "true"[0] != "false"[0];
  }

  lemma SharedRead(host: Host, b: Bootstrap)
    requires HostRules(host) && PlainShared(b.texts) && Render(host.scalar, b).Some?
    ensures var texts := DecodeTexts(Render(host.scalar, b).value);
            && texts.clusterAPIURL == b.texts.clusterAPIURL && texts.clusterCAData == b.texts.clusterCAData
            && texts.clusterToken == b.texts.clusterToken
  {
    PlainIsRead(host, b, ClusterAPIURL);
    PlainIsRead(host, b, ClusterCAData);
    PlainIsRead(host, b, ClusterToken);
  }

  lemma PlainIsRead(host: Host, b: Bootstrap, key: Key)
    requires HostRules(host) && Plain(Rendered(b, key)) && Render(host.scalar, b).Some?
    ensures var data := Render(host.scalar, b).value; key in data && Decode(data, key) == Rendered(b, key)
  {
    RenderedEntry(host.scalar, b, key);
    assert key.GitHubAppPrivateKey? || Kept(host.scalar, Rendered(b, key));
  }

  lemma TokenRead(host: Host, b: Bootstrap)
    requires HostRules(host) && Plain(b.texts.cloudflareToken) && Render(host.scalar, b).Some?
    ensures Decoded(Render(host.scalar, b).value).texts.cloudflareToken == b.texts.cloudflareToken
  {
    PlainIsRead(host, b, CloudflareAPIToken);
  }

  // Every text that the template puts between quotes comes back as it went in.
  predicate KeptTexts(scalar: string -> Option<string>, texts: Texts) {
    && Kept(scalar, texts.githubClientID) && Kept(scalar, texts.githubClientSecret)
    && Kept(scalar, texts.githubAppID) && Kept(scalar, texts.githubAppSlug)
    && Kept(scalar, texts.githubAppWebhookSecret)
    && Kept(scalar, texts.baseDomain) && Kept(scalar, texts.cloudflareToken) && Kept(scalar, texts.acmeEnvironment)
    && Kept(scalar, texts.clusterAPIURL) && Kept(scalar, texts.clusterCAData) && Kept(scalar, texts.clusterToken)
  }

  lemma FieldsKept(host: Host, b: Bootstrap)
    requires HostRules(host) && KeptTexts(host.scalar, b.texts) && PlainPasswords(b.passwords)
    ensures KeptButEmail(host.scalar, b)
  {
    SwitchIsKept(host);
  }

  lemma SwitchIsKept(host: Host)
    requires HostRules(host)
    ensures Kept(host.scalar, "true") && Kept(host.scalar, "false") && Kept(host.scalar, "")
  {
    assert Plain("true") && Plain("false") && Plain("");
  }

  // ---- Merging ----

  function MergedText(given: string, stored: string): string {
    if given != "" then given else stored
  }

  function MergedTexts(given: Texts, stored: Texts): Texts {
    Texts(
      MergedText(given.githubClientID, stored.githubClientID),
          MergedText(given.githubClientSecret, stored.githubClientSecret),
      MergedText(given.githubAppID, stored.githubAppID), MergedText(given.githubAppSlug, stored.githubAppSlug),
      MergedText(given.githubAppPrivateKey, stored.githubAppPrivateKey),
      MergedText(given.githubAppWebhookSecret, stored.githubAppWebhookSecret),
      MergedText(given.baseDomain, stored.baseDomain), MergedText(given.cloudflareToken, stored.cloudflareToken),
      MergedText(given.acmeEnvironment, stored.acmeEnvironment),
      MergedText(given.clusterAPIURL, stored.clusterAPIURL), MergedText(given.clusterCAData, stored.clusterCAData),
      MergedText(given.clusterToken, stored.clusterToken))
  }

  // The values an apply renders: gaps filled from what is stored.
  function Merged(given: Bootstrap, stored: Bootstrap): Bootstrap {
    given.(texts := MergedTexts(given.texts, stored.texts),
           adminEmail := if given.adminEmail == "" then stored.adminEmail else given.adminEmail)
  }

  predicate Differs(given: Bootstrap, stored: Bootstrap) {
    given.tls != stored.tls || MergedTexts(given.texts, stored.texts) != stored.texts
  }

  class Cluster {
    var secret: Option<SecretData>

    constructor (secret: Option<SecretData>)
      ensures this.secret == secret
    {
      this.secret := secret;
    }

    // A manifest that cannot be read, or an apply that fails otherwise, leaves
    // the stored secret as it was.
    method Apply(manifest: Option<SecretData>, succeeds: bool) returns (ok: bool)
      modifies this
      ensures ok == (succeeds && manifest.Some?)
      ensures secret == if ok then manifest else old(secret)
    {
      ok := succeeds && manifest.Some?;
      if ok {
        secret := manifest;
      }
    }
  }

  // Template values on one side, the secrets read from the cluster on the other.
  class Values {
    var passwords: Passwords
    var adminEmail: string
    var texts: Texts
    var tls: bool

    constructor (b: Bootstrap)
      ensures View() == b
    {
      passwords, adminEmail, texts, tls := b.passwords, b.adminEmail, b.texts, b.tls;
    }

    ghost function View(): Bootstrap
      reads this
    {
      Bootstrap(passwords, adminEmail, texts, tls)
    }
  }

  // The loop over the pairs of strings: a gap on the flag side takes the stored
  // value, and a value on the flag side replaces another stored one.
  method MergeFields(vals: Values, existing: Values) returns (changed: bool)
    requires vals != existing
    modifies vals`texts, existing`texts
    ensures vals.texts == existing.texts == MergedTexts(old(vals.texts), old(existing.texts))
    ensures changed <==> existing.texts != old(existing.texts)
  {
    ghost var given, stored := vals.texts, existing.texts;
    changed := false;
    for f := 0 to FIELD_COUNT
      invariant forall i: nat :: i < f ==>
          vals.texts.Get(i) == existing.texts.Get(i) == MergedText(given.Get(i), stored.Get(i))
      invariant forall i: nat :: f <= i < FIELD_COUNT ==>
              vals.texts.Get(i) == given.Get(i) && existing.texts.Get(i) == stored.Get(i)
      invariant !changed ==> existing.texts == stored
      invariant changed ==> exists i: nat :: i < f && existing.texts.Get(i) != stored.Get(i)
    {
      GetAfterSet(vals.texts, f, existing.texts.Get(f));
      if vals.texts.Get(f) == "" {
        vals.texts := vals.texts.Set(f, existing.texts.Get(f));
      }
      GetAfterSet(existing.texts, f, vals.texts.Get(f));
      if vals.texts.Get(f) != existing.texts.Get(f) {
        existing.texts := existing.texts.Set(f, vals.texts.Get(f));
        changed := true;
      }
    }
    MergedFieldwise(given, stored);
    SameTexts(vals.texts, MergedTexts(given, stored));
    SameTexts(existing.texts, MergedTexts(given, stored));
  }

  lemma MergedFieldwise(given: Texts, stored: Texts)
    ensures forall f: nat :: f < FIELD_COUNT ==>
        MergedTexts(given, stored).Get(f) == MergedText(given.Get(f), stored.Get(f))
  {}

  method MergeBootstrapConfig(scalar: string -> Option<string>, vals: Values, existing: Values, cluster: Cluster,
                              applySucceeds: bool) returns (ok: bool)
    requires vals != existing
    modifies vals, existing`texts, existing`tls, cluster
    ensures vals.View() == Merged(old(vals.View()), old(existing.View()))
    ensures existing.View() == old(existing.View()).(texts := vals.texts, tls := vals.tls)
    ensures ok <==> !Differs(old(vals.View()), old(existing.View())) ||
                    (applySucceeds && Render(scalar, vals.View()).Some?)
    ensures cluster.secret == if ok && Differs(old(vals.View()), old(existing.View()))
                              then Render(scalar, vals.View()) else old(cluster.secret)
  {
    var changed := false;
    if vals.tls != existing.tls {
      existing.tls := vals.tls;
      changed := true;
    }
    var textsChanged := MergeFields(vals, existing);
    changed := changed || textsChanged;
    if vals.adminEmail == "" {
      vals.adminEmail := existing.adminEmail;
    }
    if !changed {
      return true;
    }
    var manifest := Render(scalar, Bootstrap(vals.passwords, vals.adminEmail, vals.texts, vals.tls));
    ok := cluster.Apply(manifest, applySucceeds);
  }

  // ---- GitHub flags ----

  datatype GitHubFlags = GitHubFlags(
    clientID: string, clientSecret: string, appID: string, appSlug: string, appKeyFile: string,
        appWebhookSecret: string)

  datatype GitHubError = PartialAppFlags | UnreadableKeyFile

  predicate AllOrNone(texts: Texts) {
    && (texts.githubAppID != "") == (texts.githubAppSlug != "")
    && (texts.githubAppSlug != "") == (texts.githubAppPrivateKey != "")
    && (texts.githubAppPrivateKey != "") == (texts.githubAppWebhookSecret != "")
  }

  predicate AppFlagsTogether(f: GitHubFlags) {
    && (f.appID != "") == (f.appSlug != "")
    && (f.appSlug != "") == (f.appKeyFile != "")
    && (f.appKeyFile != "") == (f.appWebhookSecret != "")
  }

  // All four or none, in so many words.
  lemma TogetherExactly(texts: Texts, f: GitHubFlags)
    ensures AllOrNone(texts) <==>
            || (&& texts.githubAppID != "" && texts.githubAppSlug != ""
                && texts.githubAppPrivateKey != "" && texts.githubAppWebhookSecret != "")
            || (&& texts.githubAppID == "" && texts.githubAppSlug == ""
                && texts.githubAppPrivateKey == "" && texts.githubAppWebhookSecret == "")
    ensures AppFlagsTogether(f) <==>
            || (f.appID != "" && f.appSlug != "" && f.appKeyFile != "" && f.appWebhookSecret != "")
            || (f.appID == "" && f.appSlug == "" && f.appKeyFile == "" && f.appWebhookSecret == "")
  {}

  function GitHubResult(host: Host, f: GitHubFlags): Option<GitHubError> {
    if !AppFlagsTogether(f) then Some(PartialAppFlags)
    else if f.appKeyFile != "" && host.files(f.appKeyFile).None? then Some(UnreadableKeyFile)
    else None
  }

  function GitHubTexts(host: Host, f: GitHubFlags, texts: Texts): Texts {
    texts.(githubClientID := f.clientID, githubClientSecret := f.clientSecret,
           githubAppID := f.appID, githubAppSlug := f.appSlug, githubAppWebhookSecret := f.appWebhookSecret,
           githubAppPrivateKey :=
             if f.appKeyFile != "" && host.files(f.appKeyFile).Some? then host.files(f.appKeyFile).value
             else texts.githubAppPrivateKey)
  }

  // Counts the four app flags: giving only some of them is an error.
  method ApplyGitHubFlags(host: Host, f: GitHubFlags, vals: Values) returns (error: Option<GitHubError>)
    modifies vals`texts
    ensures error == GitHubResult(host, f)
    ensures vals.texts == if error == Some(PartialAppFlags) then old(vals.texts)
        else GitHubTexts(host, f, old(vals.texts))
  {
    var appFlags := [f.appID, f.appSlug, f.appKeyFile, f.appWebhookSecret];
    var appFlagsGiven := 0;
    for i := 0 to |appFlags|
      invariant 0 <= appFlagsGiven <= i
      invariant appFlagsGiven == 0 <==> forall j :: 0 <= j < i ==> appFlags[j] == ""
      invariant appFlagsGiven == i <==> forall j :: 0 <= j < i ==> appFlags[j] != ""
    {
      if appFlags[i] != "" {
        appFlagsGiven := appFlagsGiven + 1;
      }
    }
    assert appFlags[0] == f.appID && appFlags[1] == f.appSlug && appFlags[2] == f.appKeyFile
        && appFlags[3] == f.appWebhookSecret;
    if appFlagsGiven != 0 && appFlagsGiven != 4 {
      return Some(PartialAppFlags);
    }
    vals.texts := vals.texts.(githubClientID := f.clientID, githubClientSecret := f.clientSecret,
                              githubAppID := f.appID,
                              githubAppSlug := f.appSlug, githubAppWebhookSecret := f.appWebhookSecret);
    if f.appKeyFile == "" {
      return None;
    }
    var pem := host.files(f.appKeyFile);
    if pem.None? {
      return Some(UnreadableKeyFile);
    }
    vals.texts := vals.texts.(githubAppPrivateKey := pem.value);
    return None;
  }
}
