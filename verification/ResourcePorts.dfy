// Ports, TLS and certificate sources of the stack resources the builder emits.
module ResourcePorts {
  import opened DomainNames

  datatype Port = Port(name: string, number: int, protocol: string, exposed: bool, fqdn: string)

  datatype SpecPort = SpecPort(name: string, number: int, protocol: string, expose: bool, tls: bool, fqdn: string,
                               tlsSecretRef: string)

  datatype Builder = Builder(lower: char -> char, platformBaseDomain: string, sharedCompute: bool, platformTLS: bool)

  const WILDCARD := "platform-wildcard-tls"
  const ISSUER := "letsencrypt-prod"

  // The low 32 bits of a port number, as a signed number.
  function ToInt32(n: int): (r: int)
    ensures -0x8000_0000 <= r < 0x8000_0000 && (r - n) % 0x1_0000_0000 == 0
    ensures -0x8000_0000 <= n < 0x8000_0000 ==> r == n
  {
    (n + 0x8000_0000) % 0x1_0000_0000 - 0x8000_0000
  }

  predicate ShouldEnableTLS(fqdn: string) {
    && fqdn != ""
    && !HasSuffix(fqdn, ".nip.io") && !HasSuffix(fqdn, ".sslip.io")
    && !HasSuffix(fqdn, ".local") && !HasSuffix(fqdn, ".localhost")
  }

  predicate TLSAllowed(b: Builder) {
    !b.sharedCompute || b.platformTLS
  }

  predicate TLSFor(b: Builder, port: Port) {
    port.exposed && ShouldEnableTLS(port.fqdn) && TLSAllowed(b)
  }

  function SpecPortFor(b: Builder, port: Port): SpecPort {
    SpecPort(
      port.name, ToInt32(port.number),
          seq(|port.protocol|, i requires 0 <= i < |port.protocol| => b.lower(port.protocol[i])),
      port.exposed, TLSFor(b, port), if port.exposed then port.fqdn else "",
      if TLSFor(b, port) && IsDirectChildOfBaseDomain(b.lower, port.fqdn, b.platformBaseDomain) then WILDCARD else "")
  }

  function SpecPortsFor(b: Builder, ports: seq<Port>): seq<SpecPort> {
    seq(|ports|, i requires 0 <= i < |ports| => SpecPortFor(b, ports[i]))
  }

  method SetPorts(b: Builder, ports: seq<Port>) returns (spec: seq<SpecPort>)
    ensures spec == SpecPortsFor(b, ports)
  {
    var filled := new SpecPort[|ports|](_ => SpecPort("", 0, "", false, false, "", ""));
    for i := 0 to |ports|
      invariant forall j :: 0 <= j < i ==> filled[j] == SpecPortFor(b, ports[j])
    {
      var port := ports[i];
      var tls := port.exposed && ShouldEnableTLS(port.fqdn);
      if b.sharedCompute && !b.platformTLS {
        tls := false;
      }
      var protocol := seq(|port.protocol|, k requires 0 <= k < |port.protocol| => b.lower(port.protocol[k]));
      filled[i] := SpecPort(port.name, ToInt32(port.number), protocol, port.exposed, tls, "", "");
      if port.exposed {
        filled[i] := filled[i].(fqdn := port.fqdn);
      }
      if filled[i].tls && IsDirectChildOfBaseDomain(b.lower, port.fqdn, b.platformBaseDomain) {
        filled[i] := filled[i].(tlsSecretRef := WILDCARD);
      }
    }
    spec := filled[..];
  }

  method UsesPlatformWildcardTLS(ports: seq<SpecPort>) returns (uses: bool)
    ensures uses <==> exists i :: 0 <= i < |ports| && ports[i].tlsSecretRef == WILDCARD
  {
    for i := 0 to |ports|
      invariant forall j :: 0 <= j < i ==> ports[j].tlsSecretRef != WILDCARD
    {
      if ports[i].tlsSecretRef == WILDCARD {
        return true;
      }
    }
    return false;
  }

  method HasCertManagerTLSPorts(ports: seq<SpecPort>) returns (has: bool)
    ensures has <==> exists i :: 0 <= i < |ports| && ports[i].tls && ports[i].tlsSecretRef == ""
  {
    for i := 0 to |ports|
      invariant forall j :: 0 <= j < i ==> !(ports[j].tls && ports[j].tlsSecretRef == "")
    {
      if ports[i].tls && ports[i].tlsSecretRef == "" {
        return true;
      }
    }
    return false;
  }

  datatype Label = StackID | StackName | ResourceName | ResourceID | ManagedBy | UsesPlatformWildcard

  class StackResourceCR {
    var ports: seq<SpecPort>
    var labels: map<Label, string>
    var clusterIssuer: string  // the issuer annotation, "" when it is not set

    constructor (ports: seq<SpecPort>, labels: map<Label, string>)
      ensures this.ports == ports && this.labels == labels && clusterIssuer == ""
    {
      this.ports, this.labels, clusterIssuer := ports, labels, "";
    }
  }

  // A public name with TLS directly below the platform domain uses the
  // platform's wildcard certificate; any other TLS port gets its own.
  ghost predicate NeedsWildcard(b: Builder, port: Port) {
    TLSFor(b, port) && Normalised(b.lower, b.platformBaseDomain) != "" &&
    OneLabelBelow(Normalised(b.lower, port.fqdn), Normalised(b.lower, b.platformBaseDomain))
  }

  ghost predicate NeedsIssuer(b: Builder, port: Port) {
    TLSFor(b, port) && !NeedsWildcard(b, port)
  }

  lemma CertificateNeeds(b: Builder, ports: seq<Port>)
    ensures var spec := SpecPortsFor(b, ports);
            && ((exists i :: 0 <= i < |spec| && spec[i].tlsSecretRef == WILDCARD) <==> SomeNeedsWildcard(b, ports))
            && ((exists i :: 0 <= i < |spec| && spec[i].tls && spec[i].tlsSecretRef == "") <==>
                SomeNeedsIssuer(b, ports))
  {
    var spec := SpecPortsFor(b, ports);
    forall i | 0 <= i < |ports|
      ensures spec[i].tlsSecretRef == WILDCARD <==> NeedsWildcard(b, ports[i])
      ensures spec[i].tls && spec[i].tlsSecretRef == "" <==> NeedsIssuer(b, ports[i])
    {
      OneCertificateSource(b, ports, i);
    }
  }

  ghost predicate SomeNeedsWildcard(b: Builder, ports: seq<Port>) {
    exists i :: 0 <= i < |ports| && NeedsWildcard(b, ports[i])
  }

  ghost predicate SomeNeedsIssuer(b: Builder, ports: seq<Port>) {
    exists i :: 0 <= i < |ports| && NeedsIssuer(b, ports[i])
  }

  // The wildcard label and the issuer annotation are set just when some port needs them.
  method BuildStackResourceCR(b: Builder, identity: map<Label, string>, ports: seq<Port>) returns (cr: StackResourceCR)
    ensures fresh(cr) && cr.ports == SpecPortsFor(b, ports)
    ensures cr.labels == if SomeNeedsWildcard(b, ports) then identity[UsesPlatformWildcard := "true"] else identity
    ensures cr.clusterIssuer == if SomeNeedsIssuer(b, ports) then ISSUER else ""
  {
    var spec := SetPorts(b, ports);
    cr := new StackResourceCR(spec, identity);
    var wildcard := UsesPlatformWildcardTLS(spec);
    if wildcard {
      cr.labels := cr.labels[UsesPlatformWildcard := "true"];
    }
    var certManager := HasCertManagerTLSPorts(spec);
    if certManager {
      cr.clusterIssuer := ISSUER;
    }
    assert wildcard == SomeNeedsWildcard(b, ports) && certManager == SomeNeedsIssuer(b, ports) by {
      CertificateNeeds(b, ports);
    }
  }

  // Every emitted TLS port is public and has exactly one certificate source: the
  // wildcard reference just when its name is one label below the platform
  // domain, else the issuer. A port without TLS has none.
  lemma OneCertificateSource(b: Builder, ports: seq<Port>, i: nat)
    requires i < |ports|
    ensures var emitted := SpecPortsFor(b, ports)[i];
            && (emitted.tls ==> emitted.expose && emitted.fqdn == ports[i].fqdn && emitted.fqdn != "")
            && (emitted.tlsSecretRef == WILDCARD <==> NeedsWildcard(b, ports[i]))
            && (emitted.tls && emitted.tlsSecretRef == "" <==> NeedsIssuer(b, ports[i]))
            && (emitted.tls <==> NeedsWildcard(b, ports[i]) || NeedsIssuer(b, ports[i]))
            && (!emitted.tls ==> emitted.tlsSecretRef == "")
  {
    DirectChildIsOneLabelBelow(b.lower, ports[i].fqdn, b.platformBaseDomain);
  }

  // Shared compute without platform TLS needs no certificate at all.
  lemma SharedComputeWithoutTLS(b: Builder, ports: seq<Port>, i: nat)
    requires b.sharedCompute && !b.platformTLS && i < |ports|
    ensures !SpecPortsFor(b, ports)[i].tls && !NeedsWildcard(b, ports[i]) && !NeedsIssuer(b, ports[i])
  {}

  ghost predicate EndsWith(s: string, suffix: string) {
    exists start: string :: s == start + suffix
  }

  lemma SuffixExactly(s: string, suffix: string)
    ensures HasSuffix(s, suffix) <==> EndsWith(s, suffix)
  {
    if HasSuffix(s, suffix) {
      assert s == s[..|s| - |suffix|] + suffix;
    }
  }

  // A name for which no certificate can be had.
  ghost predicate LocalName(fqdn: string) {
    fqdn == "" || EndsWith(fqdn, ".nip.io") || EndsWith(fqdn, ".sslip.io") || EndsWith(fqdn, ".local") ||
    EndsWith(fqdn, ".localhost")
  }

  // Each emitted port, field by field.
  lemma EmittedExactly(b: Builder, ports: seq<Port>, i: nat)
    requires i < |ports|
    ensures |SpecPortsFor(b, ports)| == |ports|
    ensures var port, emitted := ports[i], SpecPortsFor(b, ports)[i];
            && emitted.name == port.name && emitted.number == ToInt32(port.number)
            && |emitted.protocol| == |port.protocol|
            && (forall k :: 0 <= k < |port.protocol| ==> emitted.protocol[k] == b.lower(port.protocol[k]))
            && emitted.expose == port.exposed
            && emitted.fqdn == (if port.exposed then port.fqdn else "")
            && (emitted.tls <==> port.exposed && !LocalName(port.fqdn) && (b.sharedCompute ==> b.platformTLS))
  {
    var fqdn := ports[i].fqdn;
    SuffixExactly(fqdn, ".nip.io");
    SuffixExactly(fqdn, ".sslip.io");
    SuffixExactly(fqdn, ".local");
    SuffixExactly(fqdn, ".localhost");
  }
}
