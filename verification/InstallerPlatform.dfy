// How the installer's platform flags are applied to the stored platform configuration.
module InstallerPlatform {
  import opened Wrappers

  datatype PlatformConfig = PlatformConfig(baseDomain: string, tlsEnabled: bool, cloudflareToken: string,
                                           acmeEnvironment: string) {
    predicate Enabled() {
      baseDomain != ""
    }
  }

  const NO_PLATFORM := PlatformConfig("", false, "", "")

  // A flag that was not given is "" or None.
  datatype PlatformFlags = PlatformFlags(baseDomain: string, tls: Option<bool>, tokenFile: string,
                                         acmeEnvironment: string)

  const PRODUCTION := "production"
  const STAGING := "staging"

  datatype PlatformError =
    | InvalidBaseDomain
    | TLSFlagsWithoutTLS
    | BaseDomainAlreadyConfigured
    | ACMEEnvironmentAlreadyConfigured
    | UnreadableTokenFile
    | BaseDomainRequired
    | TokenRequired
    | InvalidACMEEnvironment

  // File contents by path, the Kubernetes rule for DNS-1123 subdomains, and what
  // a text between double quotes in a manifest is read as, if it can be read.
  datatype Host = Host(
    files: string -> Option<string>,
    isSubdomain: string -> bool,
    scalar: string -> Option<string>)

  // Visible ASCII, blanks and tabs, without the two characters that mean
  // something in a double-quoted YAML scalar (section 7.3.1 of YAML 1.2).
  predicate Plain(text: string) {
    forall i :: 0 <= i < |text| ==> (text[i] == '\t' || ' ' <= text[i] <= '~') && text[i] != '"' && text[i] != '\\'
  }

  predicate Kept(scalar: string -> Option<string>, text: string) {
    scalar(text) == Some(text)
  }

  // Plain texts are read as they are, and DNS names are plain.
  ghost predicate HostRules(host: Host) {
    && (forall text :: Plain(text) ==> Kept(host.scalar, text))
    && (forall text :: host.isSubdomain(text) ==> Plain(text))
  }

  predicate IsSpace(c: char) {
    || c == ' ' || '\t' <= c <= '\r'
    || c == '\U{0085}' || c == '\U{00A0}' || c == '\U{1680}' || '\U{2000}' <= c <= '\U{200A}'
    || c == '\U{2028}' || c == '\U{2029}' || c == '\U{202F}' || c == '\U{205F}' || c == '\U{3000}'
  }

  function TrimLeft(s: string): string {
    if s != "" && IsSpace(s[0]) then TrimLeft(s[1..]) else s
  }

  function TrimRight(s: string): string {
    if s != "" && IsSpace(s[|s| - 1]) then TrimRight(s[..|s| - 1]) else s
  }

  function TrimSpace(s: string): string {
    TrimRight(TrimLeft(s))
  }

  // What is trimmed is space, and what is left neither begins nor ends with one.
  lemma TrimSpaceExactly(s: string) returns (i: nat, j: nat)
    ensures i <= j <= |s| && TrimSpace(s) == s[i..j]
    ensures forall k :: 0 <= k < i || j <= k < |s| ==> IsSpace(s[k])
    ensures i < j ==> !IsSpace(s[i]) && !IsSpace(s[j - 1])
  {
    var t := TrimLeft(s);
    i := LeftTrimmed(s);
    var n := RightTrimmed(t);
    j := i + n;
    assert s[i..][..n] == s[i..j];
    assert forall k :: j <= k < |s| ==> s[k] == t[k - i];
    assert i < j ==> s[j - 1] == t[n - 1];
  }

  lemma {:induction false} LeftTrimmed(s: string) returns (i: nat)
    ensures i <= |s| && TrimLeft(s) == s[i..] && (i < |s| ==> !IsSpace(s[i]))
    ensures forall k :: 0 <= k < i ==> IsSpace(s[k])
  {
    if s != "" && IsSpace(s[0]) {
      i := LeftTrimmed(s[1..]);
      assert s[1..][i..] == s[i + 1..];
      assert forall k :: 1 <= k < i + 1 ==> s[k] == s[1..][k - 1];
      i := i + 1;
    } else {
      i := 0;
    }
  }

  lemma {:induction false} RightTrimmed(s: string) returns (j: nat)
    ensures j <= |s| && TrimRight(s) == s[..j] && (0 < j ==> !IsSpace(s[j - 1]))
    ensures forall k :: j <= k < |s| ==> IsSpace(s[k])
  {
    if s != "" && IsSpace(s[|s| - 1]) {
      var t := s[..|s| - 1];
      j := RightTrimmed(t);
      assert t[..j] == s[..j];
      assert forall k :: j <= k < |t| ==> s[k] == t[k];
    } else {
      j := |s|;
    }
  }

  // ASCII white space: blank, tab, line feed, vertical tab, form feed, carriage return.
  predicate AllBlank(s: string) {
    forall i :: 0 <= i < |s| ==> s[i] in {' ', '\t', '\n', '\U{000B}', '\U{000C}', '\r'}
  }

  predicate Visible(c: char) {
    '!' <= c <= '~'
  }

  // So whatever white space surrounds a text that begins and ends with a visible
  // character, trimming gives that text.
  lemma FramedIsTrimmed(before: string, text: string, after: string)
    requires AllBlank(before) && AllBlank(after)
    requires text != "" ==> Visible(text[0]) && Visible(text[|text| - 1])
    ensures TrimSpace(before + text + after) == text
  {
    var s := before + text + after;
    var i, j := TrimSpaceExactly(s);
    assert forall k :: 0 <= k < |before| ==> s[k] == before[k];
    assert forall k :: 0 <= k < |after| ==> s[|before| + |text| + k] == after[k];
    assert forall k :: 0 <= k < |text| ==> s[|before| + k] == text[k];
    if text == "" {
      assert i == j;
    } else {
      var last := |before| + |text| - 1;
      assert !IsSpace(s[|before|]) && !IsSpace(s[last]);
      assert i == |before| && j == last + 1;
      assert s[i..j] == text;
    }
  }

  predicate ValidBaseDomain(host: Host, baseDomain: string) {
    '.' in baseDomain && host.isSubdomain(baseDomain)
  }

  // The checks made before anything is read from a file.
  function FlagConflict(host: Host, flags: PlatformFlags, stored: PlatformConfig, tls: bool): Option<PlatformError> {
    var baseDomain, acme := TrimSpace(flags.baseDomain), TrimSpace(flags.acmeEnvironment);
    if baseDomain != "" && !ValidBaseDomain(host, baseDomain) then Some(InvalidBaseDomain)
    else if !tls && (flags.tokenFile != "" || acme != "") then Some(TLSFlagsWithoutTLS)
    else if stored.Enabled() && baseDomain != "" && baseDomain != stored.baseDomain
        then Some(BaseDomainAlreadyConfigured)
    else if stored.Enabled() && acme != "" && stored.acmeEnvironment != "" && acme != stored.acmeEnvironment then
      Some(ACMEEnvironmentAlreadyConfigured)
    else None
  }

  // The checks made on the configuration the flags lead to.
  function Finish(host: Host, resolved: PlatformConfig): Result<PlatformConfig, PlatformError> {
    if !resolved.Enabled() then
      if resolved.tlsEnabled then Failure(BaseDomainRequired) else Success(resolved)
    else if !ValidBaseDomain(host, resolved.baseDomain) then Failure(InvalidBaseDomain)
    else if !resolved.tlsEnabled then Success(resolved)
    else if resolved.cloudflareToken == "" then Failure(TokenRequired)
    else
      var acme := if resolved.acmeEnvironment == "" then PRODUCTION else resolved.acmeEnvironment;
      if acme != PRODUCTION && acme != STAGING then Failure(InvalidACMEEnvironment)
      else Success(resolved.(acmeEnvironment := acme))
  }

  function ResolvePlatformConfig(host: Host, flags: PlatformFlags, stored: PlatformConfig)
    : Result<PlatformConfig, PlatformError>
  {
    var baseDomain, acme := TrimSpace(flags.baseDomain), TrimSpace(flags.acmeEnvironment);
    var tls := if flags.tls.Some? then flags.tls.value else stored.tlsEnabled;
    var conflict := FlagConflict(host, flags, stored, tls);
    if conflict.Some? then Failure(conflict.value)
    else if tls && flags.tokenFile != "" && host.files(flags.tokenFile).None? then Failure(UnreadableTokenFile)
    else
      Finish(host, PlatformConfig(
               if stored.Enabled() then stored.baseDomain else baseDomain,
               tls,
               if tls && flags.tokenFile != "" then TrimSpace(host.files(flags.tokenFile).value)
                   else stored.cloudflareToken,
               if tls && acme != "" then acme else stored.acmeEnvironment))
  }

  // ---- What acceptance means ----

  predicate UsableTLS(host: Host, c: PlatformConfig) {
    c.tlsEnabled ==>
      && ValidBaseDomain(host, c.baseDomain)
      && c.cloudflareToken != ""
      && (c.acmeEnvironment == PRODUCTION || c.acmeEnvironment == STAGING)
  }

  // Without a base domain nothing else of the platform is configured.
  predicate Sound(c: PlatformConfig) {
    !c.Enabled() ==> c == NO_PLATFORM
  }

  // A configured base domain is kept as it is, and with it a configured ACME environment.
  predicate Keeps(before: PlatformConfig, after: PlatformConfig) {
    before.Enabled() ==>
      && after.baseDomain == before.baseDomain
      && (before.acmeEnvironment != "" ==> after.acmeEnvironment == before.acmeEnvironment)
  }

  lemma AcceptedConfig(host: Host, flags: PlatformFlags, stored: PlatformConfig)
    requires ResolvePlatformConfig(host, flags, stored).Success?
    ensures var resolved := ResolvePlatformConfig(host, flags, stored).value;
            && UsableTLS(host, resolved)
            && (resolved.tlsEnabled ==> resolved.Enabled())
            && Keeps(stored, resolved)
            && (Sound(stored) ==> Sound(resolved))
  {}

  // Resolving never blanks what was stored: so filling gaps from the stored
  // configuration adds nothing to a resolved one.
  lemma ResolvedHasNoGaps(host: Host, flags: PlatformFlags, stored: PlatformConfig)
    requires ResolvePlatformConfig(host, flags, stored).Success?
    ensures var resolved := ResolvePlatformConfig(host, flags, stored).value;
            && (resolved.baseDomain == "" ==> stored.baseDomain == "")
            && (resolved.cloudflareToken == "" ==> stored.cloudflareToken == "")
            && (resolved.acmeEnvironment == "" ==> stored.acmeEnvironment == "")
  {}

  // Giving the same flags again accepts the same configuration.
  lemma ResolvingTwice(host: Host, flags: PlatformFlags, stored: PlatformConfig)
    requires ResolvePlatformConfig(host, flags, stored).Success?
    ensures var resolved := ResolvePlatformConfig(host, flags, stored);
            ResolvePlatformConfig(host, flags, resolved.value) == resolved
  {}

  // On a fully configured platform, an accepted run can switch TLS and rotate
  // the token, and nothing else.
  lemma OnlyTheTokenRotates(host: Host, flags: PlatformFlags, stored: PlatformConfig)
    requires stored.Enabled() && stored.acmeEnvironment != ""
    requires ResolvePlatformConfig(host, flags, stored).Success?
    ensures var resolved := ResolvePlatformConfig(host, flags, stored).value;
            && resolved == stored.(tlsEnabled := resolved.tlsEnabled, cloudflareToken := resolved.cloudflareToken)
            && (resolved.tlsEnabled != stored.tlsEnabled ==> flags.tls == Some(resolved.tlsEnabled))
            && (flags.tokenFile == "" ==> resolved.cloudflareToken == stored.cloudflareToken)
            && (flags.tokenFile != "" ==>
                  && host.files(flags.tokenFile).Some?
                  && resolved.cloudflareToken == TrimSpace(host.files(flags.tokenFile).value))
  {}

  // White space around a token in its file, and around the texts of flags, makes
  // no difference: the token stored is exactly the one in the file.
  lemma FramedFileGivesToken(host: Host, flags: PlatformFlags, stored: PlatformConfig, before: string, token: string,
                             after: string)
    requires AllBlank(before) && AllBlank(after)
    requires token != "" ==> Visible(token[0]) && Visible(token[|token| - 1])
    requires flags.tokenFile != "" && host.files(flags.tokenFile) == Some(before + token + after)
    requires ResolvePlatformConfig(host, flags, stored).Success?
    ensures ResolvePlatformConfig(host, flags, stored).value.cloudflareToken == token
  {
    FramedIsTrimmed(before, token, after);
  }

  predicate FramedBy(framed: string, text: string, before: string, after: string) {
    && framed == before + text + after && AllBlank(before) && AllBlank(after)
    && (text != "" ==> Visible(text[0]) && Visible(text[|text| - 1]))
  }

  lemma FramedFlagsAreTrimmed(host: Host, flags: PlatformFlags, stored: PlatformConfig, baseDomain: string,
                              acme: string, before: string, after: string)
    requires FramedBy(flags.baseDomain, baseDomain, before, after)
    requires FramedBy(flags.acmeEnvironment, acme, before, after)
    ensures ResolvePlatformConfig(host, flags, stored) ==
            ResolvePlatformConfig(host, flags.(baseDomain := baseDomain, acmeEnvironment := acme), stored)
    ensures ResolvePlatformConfig(host, flags, stored).Success? && !stored.Enabled() ==>
              ResolvePlatformConfig(host, flags, stored).value.baseDomain == baseDomain
  {
    FramedIsTrimmed(before, baseDomain, after);
    FramedIsTrimmed(before, acme, after);
    NothingToTrim(baseDomain);
    NothingToTrim(acme);
    SameWhenTrimmed(host, flags, flags.(baseDomain := baseDomain, acmeEnvironment := acme), stored);
  }

  lemma NothingToTrim(text: string)
    requires text != "" ==> Visible(text[0]) && Visible(text[|text| - 1])
    ensures TrimSpace(text) == text
  {
    FramedIsTrimmed("", text, "");
    assert "" + text + "" == text;
  }

  lemma SameWhenTrimmed(host: Host, flags: PlatformFlags, other: PlatformFlags, stored: PlatformConfig)
    requires TrimSpace(flags.baseDomain) == TrimSpace(other.baseDomain)
    requires TrimSpace(flags.acmeEnvironment) == TrimSpace(other.acmeEnvironment)
    requires flags.tls == other.tls && flags.tokenFile == other.tokenFile
    ensures ResolvePlatformConfig(host, flags, stored) == ResolvePlatformConfig(host, other, stored)
    ensures ResolvePlatformConfig(host, flags, stored).Success? && !stored.Enabled() ==>
              ResolvePlatformConfig(host, flags, stored).value.baseDomain == TrimSpace(flags.baseDomain)
  {}

  // Exactly which flags are accepted on which stored configuration.
  lemma AcceptedExactly(host: Host, flags: PlatformFlags, stored: PlatformConfig)
    ensures var baseDomain, acme := TrimSpace(flags.baseDomain), TrimSpace(flags.acmeEnvironment);
            var tls := flags.tls == Some(true) || (flags.tls == None && stored.tlsEnabled);
            ResolvePlatformConfig(host, flags, stored).Success? <==>
            && (baseDomain != "" ==> '.' in baseDomain && host.isSubdomain(baseDomain))
            && (stored.baseDomain != "" ==> '.' in stored.baseDomain && host.isSubdomain(stored.baseDomain))
            && (stored.Enabled() ==>
                  && baseDomain in {"", stored.baseDomain}
                  && (acme == "" || stored.acmeEnvironment in {"", acme}))
            && (!tls ==> flags.tokenFile == "" && acme == "")
            && (tls ==>
                  && (stored.Enabled() || baseDomain != "")
                  && (flags.tokenFile == "" ==> stored.cloudflareToken != "")
                  && (flags.tokenFile != "" ==>
                        host.files(flags.tokenFile).Some? && TrimSpace(host.files(flags.tokenFile).value) != "")
                  && acme in {"", PRODUCTION, STAGING}
                  && (acme == "" ==> stored.acmeEnvironment in {"", PRODUCTION, STAGING}))
  {}

  // And what they are resolved to, value by value.
  lemma ResolvedExactly(host: Host, flags: PlatformFlags, stored: PlatformConfig)
    requires ResolvePlatformConfig(host, flags, stored).Success?
    ensures var resolved := ResolvePlatformConfig(host, flags, stored).value;
            var acme := TrimSpace(flags.acmeEnvironment);
            && resolved.baseDomain ==
               (if stored.baseDomain != "" then stored.baseDomain else TrimSpace(flags.baseDomain))
            && resolved.tlsEnabled == (flags.tls == Some(true) || (flags.tls == None && stored.tlsEnabled))
            && resolved.cloudflareToken ==
               (if flags.tokenFile == "" then stored.cloudflareToken else TrimSpace(host.files(flags.tokenFile).value))
            && resolved.acmeEnvironment ==
               if !resolved.tlsEnabled then stored.acmeEnvironment
               else if acme != "" then acme
               else if stored.acmeEnvironment != "" then stored.acmeEnvironment
               else "production"
  {}

  // A refusal names what is wrong.
  lemma RefusalHasReason(host: Host, flags: PlatformFlags, stored: PlatformConfig)
    requires ResolvePlatformConfig(host, flags, stored).Failure?
    ensures var baseDomain, acme := TrimSpace(flags.baseDomain), TrimSpace(flags.acmeEnvironment);
            var tls := flags.tls == Some(true) || (flags.tls == None && stored.tlsEnabled);
            match ResolvePlatformConfig(host, flags, stored).error
            case InvalidBaseDomain =>
              || (baseDomain != "" && !ValidBaseDomain(host, baseDomain))
              || (stored.Enabled() && !ValidBaseDomain(host, stored.baseDomain))
            case TLSFlagsWithoutTLS => !tls && (flags.tokenFile != "" || acme != "")
            case BaseDomainAlreadyConfigured => stored.Enabled() && baseDomain !in {"", stored.baseDomain}
            case ACMEEnvironmentAlreadyConfigured =>
              stored.Enabled() && acme != "" && stored.acmeEnvironment !in {"", acme}
            case UnreadableTokenFile => tls && flags.tokenFile != "" && host.files(flags.tokenFile).None?
            case BaseDomainRequired => tls && !stored.Enabled() && baseDomain == ""
            case TokenRequired =>
              && tls
              && if flags.tokenFile == "" then stored.cloudflareToken == ""
                 else host.files(flags.tokenFile).Some? && TrimSpace(host.files(flags.tokenFile).value) == ""
            case InvalidACMEEnvironment =>
              && tls
              && (if acme == "" then stored.acmeEnvironment else acme) !in {"", PRODUCTION, STAGING}
  {}

  // A usable configuration is kept as it is when no flag is given.
  lemma NoFlagsKeepStored(host: Host, stored: PlatformConfig)
    requires UsableTLS(host, stored) && (stored.Enabled() ==> ValidBaseDomain(host, stored.baseDomain))
    ensures ResolvePlatformConfig(host, PlatformFlags("", None, "", ""), stored) == Success(stored)
  {}

  // Exactly when a stored ACME environment survives an accepted resolution.
  lemma ACMEIsKept(host: Host, flags: PlatformFlags, stored: PlatformConfig)
    requires ResolvePlatformConfig(host, flags, stored).Success? && stored.acmeEnvironment != ""
    ensures ResolvePlatformConfig(host, flags, stored).value.acmeEnvironment == stored.acmeEnvironment <==>
            || stored.Enabled()
            || TrimSpace(flags.acmeEnvironment) == ""
            || TrimSpace(flags.acmeEnvironment) == stored.acmeEnvironment
  {}

  // Sound is what makes the ACME environment permanent: without it, a stored
  // environment and no base domain, a run may replace the environment.
  lemma UnsoundACMEIsReplaced(host: Host)
    requires ValidBaseDomain(host, "a.b") && host.files("t") == Some("x")
    ensures var stored := PlatformConfig("", false, "", STAGING);
            var flags := PlatformFlags("a.b", Some(true), "t", PRODUCTION);
            ResolvePlatformConfig(host, flags, stored) == Success(PlatformConfig("a.b", true, "x", PRODUCTION))
  {
    assert TrimLeft("a.b") == "a.b" && TrimRight("a.b") == "a.b";
    assert TrimLeft("x") == "x" && TrimRight("x") == "x";
    assert TrimLeft(PRODUCTION) == PRODUCTION && TrimRight(PRODUCTION) == PRODUCTION;
  }
}
