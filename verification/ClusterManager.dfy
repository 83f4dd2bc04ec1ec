// The registry of clusters and the supervisor that runs a service for each.
module ClusterManager {
  import opened Wrappers

  // ---- Values ----

  datatype Credentials = Credentials(url: string, token: string, caData: string, encryptedToken: string,
                                     encryptedCAData: string)

  datatype RestConfig = RestConfig(host: string, bearerToken: string, caData: string)

  datatype Client = Client(config: RestConfig)

  datatype Controller = Controller(fn: nat, clusterID: string)

  datatype ClusterControl = ClusterControl(
    clusterID: string, credentials: Credentials, client: Client, restConfig: RestConfig, serviceID: nat,
        controllers: seq<Controller>)

  // Decryption, decoding of credentials and building of a client, all of which may fail.
  datatype Libraries = Libraries(
    decrypt: string -> Option<string>,
    restConfig: Credentials -> Option<RestConfig>,
    client: RestConfig -> Option<Client>)

  // Credentials are decrypted only when some are missing, and both together.
  function Decrypted(libs: Libraries, c: Credentials): Option<Credentials> {
    if c.token != "" && c.caData != "" then Some(c)
    else if c.encryptedToken == "" || c.encryptedCAData == "" then None
    else if libs.decrypt(c.encryptedToken).None? || libs.decrypt(c.encryptedCAData).None? then None
    else Some(c.(token := libs.decrypt(c.encryptedToken).value, caData := libs.decrypt(c.encryptedCAData).value))
  }

  // Each secret comes from its own encrypted field: with both secrets there,
  // nothing changes; with one missing, both encrypted fields are needed, and both
  // secrets are what these decrypt to.
  ghost predicate OwnSecrets(libs: Libraries, before: Credentials, after: Credentials) {
    && after.url == before.url
    && after.encryptedToken == before.encryptedToken && after.encryptedCAData == before.encryptedCAData
    && if before.token != "" && before.caData != "" then
         after.token == before.token && after.caData == before.caData
       else
         && before.encryptedToken != "" && before.encryptedCAData != ""
         && libs.decrypt(before.encryptedToken) == Some(after.token)
         && libs.decrypt(before.encryptedCAData) == Some(after.caData)
  }

  // Decryption gives exactly those credentials, and fails exactly when there are none.
  lemma DecryptedExactly(libs: Libraries, c: Credentials, after: Credentials)
    ensures Decrypted(libs, c) == Some(after) <==> OwnSecrets(libs, c, after)
  {}

  // What the credentials connect to, or None when a step fails.
  function Connected(libs: Libraries, c: Credentials): Option<(Credentials, RestConfig, Client)> {
    var decrypted := Decrypted(libs, c);
    if decrypted.None? then None
    else
      var config := libs.restConfig(decrypted.value);
      if config.None? || libs.client(config.value).None? then None
      else Some((decrypted.value, config.value, libs.client(config.value).value))
  }

  // The registered clusters, and the services the supervisor holds: for each
  // live token the cluster it serves. Tokens from next on were never given out.
  datatype Registry = Registry(registered: map<string, ClusterControl>, live: map<nat, string>, next: nat)

  function ControllersFor(fns: seq<nat>, id: string): seq<Controller> {
    seq(|fns|, i requires 0 <= i < |fns| => Controller(fns[i], id))
  }

  function Control(fns: seq<nat>, id: string, made: (Credentials, RestConfig, Client), token: nat): ClusterControl {
    ClusterControl(id, made.0, made.2, made.1, token, ControllersFor(fns, id))
  }

  function Register(libs: Libraries, fns: seq<nat>, r: Registry, id: string, c: Credentials): (Registry, bool) {
    if id in r.registered then (r, true)
    else
      match Connected(libs, c)
      case None => (r, false)
      case Some(made) =>
        (Registry(r.registered[id := Control(fns, id, made, r.next)], r.live[r.next := id], r.next + 1), true)
  }

  // The supervisor may fail to remove a service, which then stays.
  function Unregister(r: Registry, id: string, removes: bool): (Registry, bool) {
    if id !in r.registered then (r, true)
    else if !removes then (r, false)
    else (Registry(r.registered - {id}, r.live - {r.registered[id].serviceID}, r.next), true)
  }

  // ---- The manager ----

  class Cluster {
    const id: string
    var credentials: Credentials

    constructor (id: string, credentials: Credentials)
      ensures this.id == id && this.credentials == credentials
    {
      this.id, this.credentials := id, credentials;
    }
  }

  class Supervisor {
    var live: map<nat, string>
    var next: nat

    constructor ()
      ensures live == map[] && next == 0
    {
      live, next := map[], 0;
    }

    method Add(service: string) returns (token: nat)
      modifies this
      ensures token == old(next) && next == old(next) + 1 && live == old(live)[token := service]
    {
      token := next;
      live, next := live[token := service], next + 1;
    }

    method Remove(token: nat, succeeds: bool) returns (ok: bool)
      modifies this`live
      ensures ok == succeeds && live == if ok then old(live) - {token} else old(live)
    {
      if succeeds {
        live := live - {token};
      }
      return succeeds;
    }
  }

  class ClusterManagerImpl {
    const supervisor: Supervisor
    const controllersToRegister: seq<nat>
    const libs: Libraries
    var registeredClusters: map<string, ClusterControl>

    constructor (libs: Libraries, controllersToRegister: seq<nat>)
      ensures fresh(supervisor) && View() == Registry(map[], map[], 0)
      ensures this.libs == libs && this.controllersToRegister == controllersToRegister
    {
      this.libs, this.controllersToRegister, registeredClusters := libs, controllersToRegister, map[];
      supervisor := new Supervisor();
    }

    ghost function View(): Registry
      reads this, supervisor
    {
      Registry(registeredClusters, supervisor.live, supervisor.next)
    }

    method DecryptClusterCredentials(cluster: Cluster) returns (ok: bool)
      modifies cluster
      ensures ok == Decrypted(libs, old(cluster.credentials)).Some?
      ensures cluster.credentials == if ok then Decrypted(libs, old(cluster.credentials)).value
          else old(cluster.credentials)
      ensures ok ==> OwnSecrets(libs, old(cluster.credentials), cluster.credentials)
      ensures !ok ==> forall c :: !OwnSecrets(libs, old(cluster.credentials), c)
    {
      var c := cluster.credentials;
      if c.token != "" && c.caData != "" {
        return true;
      }
      if c.encryptedToken == "" || c.encryptedCAData == "" {
        return false;
      }
      var token := libs.decrypt(c.encryptedToken);
      if token.None? {
        return false;
      }
      var caData := libs.decrypt(c.encryptedCAData);
      if caData.None? {
        return false;
      }
      cluster.credentials := cluster.credentials.(token := token.value);
      cluster.credentials := cluster.credentials.(caData := caData.value);
      return true;
    }

    // A registration that fails after decryption leaves the cluster decrypted
    // but the registry and the supervisor as they were.
    method RegisterCluster(cluster: Cluster) returns (ok: bool)
      modifies this`registeredClusters, supervisor, cluster
      ensures (View(), ok) == Register(libs, controllersToRegister, old(View()), cluster.id, old(cluster.credentials))
      ensures cluster.credentials == if cluster.id !in old(registeredClusters)
          && Decrypted(libs, old(cluster.credentials)).Some?
                                     then Decrypted(libs, old(cluster.credentials)).value else old(cluster.credentials)
      ensures ok && cluster.id !in old(registeredClusters) ==>
                && cluster.id in registeredClusters
                && registeredClusters[cluster.id].credentials == cluster.credentials
                && OwnSecrets(libs, old(cluster.credentials), cluster.credentials)
    {
      if cluster.id in registeredClusters {
        return true;
      }
      var decrypted := DecryptClusterCredentials(cluster);
      if !decrypted {
        return false;
      }
      var config := libs.restConfig(cluster.credentials);
      if config.None? {
        return false;
      }
      var client := libs.client(config.value);
      if client.None? {
        return false;
      }
      var controllers := BuildControllers(cluster.id);
      var serviceID := supervisor.Add(cluster.id);
      registeredClusters := registeredClusters[cluster.id :=
        ClusterControl(cluster.id, cluster.credentials, client.value, config.value, serviceID, controllers)];
      return true;
    }

    method BuildControllers(id: string) returns (controllers: seq<Controller>)
      ensures controllers == ControllersFor(controllersToRegister, id)
    {
      var filled := new Controller[|controllersToRegister|](_ => Controller(0, ""));
      for i := 0 to |controllersToRegister|
        invariant forall j :: 0 <= j < i ==> filled[j] == Controller(controllersToRegister[j], id)
      {
        filled[i] := Controller(controllersToRegister[i], id);
      }
      controllers := filled[..];
    }

    method UnregisterCluster(id: string, removes: bool) returns (ok: bool)
      modifies this`registeredClusters, supervisor
      ensures (View(), ok) == Unregister(old(View()), id, removes)
    {
      if id !in registeredClusters {
        return true;
      }
      var removed := supervisor.Remove(registeredClusters[id].serviceID, removes);
      if !removed {
        return false;
      }
      registeredClusters := registeredClusters - {id};
      return true;
    }

    // Alone, the two halves follow each other; the lock is free in between.
    method ReRegisterCluster(cluster: Cluster, removes: bool) returns (ok: bool)
      modifies this`registeredClusters, supervisor, cluster
      ensures var first := Unregister(old(View()), cluster.id, removes);
              (View(), ok) == if first.1 then Register(libs, controllersToRegister, first.0, cluster.id,
                                                       old(cluster.credentials)) else (first.0, false)
    {
      ok := UnregisterCluster(cluster.id, removes);
      if !ok {
        return false;
      }
      ok := RegisterCluster(cluster);
    }

    method GetRestConfig(id: string) returns (config: Option<RestConfig>)
      ensures config == if id in registeredClusters then Some(registeredClusters[id].restConfig) else None
    {
      if id !in registeredClusters {
        return None;
      }
      return Some(registeredClusters[id].restConfig);
    }
  }

  // ---- All interleavings ----

  datatype Step =
    | CallRegister(id: string, credentials: Credentials)
    | CallUnregister(id: string, removes: bool)
    | FirstHalf(caller: nat, id: string, credentials: Credentials, removes: bool)
    | SecondHalf(caller: nat)

  // Callers that have unregistered and are about to register again.
  datatype System = System(registry: Registry, between: map<nat, (string, Credentials)>)

  predicate Enabled(s: System, step: Step) {
    match step
    case FirstHalf(caller, _, _, _) => caller !in s.between
    case SecondHalf(caller) => caller in s.between
    case _ => true
  }

  function Next(libs: Libraries, fns: seq<nat>, s: System, step: Step): System
    requires Enabled(s, step)
  {
    match step
    case CallRegister(id, c) => s.(registry := Register(libs, fns, s.registry, id, c).0)
    case CallUnregister(id, removes) => s.(registry := Unregister(s.registry, id, removes).0)
    case FirstHalf(caller, id, c, removes) =>
      var half := Unregister(s.registry, id, removes);
      System(half.0, if half.1 then s.between[caller := (id, c)] else s.between)
    case SecondHalf(caller) =>
      System(Register(libs, fns, s.registry, s.between[caller].0, s.between[caller].1).0, s.between - {caller})
  }

  ghost predicate Run(libs: Libraries, fns: seq<nat>, s: System, steps: seq<Step>, end: System)
    decreases |steps|
  {
    if steps == [] then end == s
    else Enabled(s, steps[0]) && Run(libs, fns, Next(libs, fns, s, steps[0]), steps[1..], end)
  }

  // Every entry is filed under its own cluster, built from credentials that
  // connect, with one controller per controller function, and served by its
  // own live token; every live token serves a registered cluster.
  ghost predicate Agree(libs: Libraries, fns: seq<nat>, r: Registry) {
    && (forall id :: id in r.registered ==> EntryAgrees(libs, fns, r, id))
    && (forall t :: t in r.live ==> t < r.next && r.live[t] in r.registered && r.registered[r.live[t]].serviceID == t)
  }

  ghost predicate EntryAgrees(libs: Libraries, fns: seq<nat>, r: Registry, id: string)
    requires id in r.registered
  {
    var control := r.registered[id];
    && control.clusterID == id
    && |control.controllers| == |fns|
    && (forall i :: 0 <= i < |fns| ==> control.controllers[i] == Controller(fns[i], id))
    && control.serviceID in r.live && r.live[control.serviceID] == id
    && libs.restConfig(control.credentials) == Some(control.restConfig)
    && libs.client(control.restConfig) == Some(control.client)
  }

  // What a registration files under a new cluster: its own secrets, and what they
  // connect with. It succeeds exactly when there is such a thing.
  lemma FiledExactly(libs: Libraries, fns: seq<nat>, r: Registry, id: string, c: Credentials)
    requires id !in r.registered
    ensures var after := Register(libs, fns, r, id, c);
            && (after.1 <==> exists own :: Connects(libs, c, own))
            && (after.1 ==>
                  && id in after.0.registered
                  && Connects(libs, c, after.0.registered[id].credentials)
                  && libs.restConfig(after.0.registered[id].credentials) == Some(after.0.registered[id].restConfig))
  {
    if own :| Connects(libs, c, own) {
      DecryptedExactly(libs, c, own);
    }
    if Decrypted(libs, c).Some? {
      DecryptedExactly(libs, c, Decrypted(libs, c).value);
      assert Connected(libs, c).Some? ==> Connects(libs, c, Decrypted(libs, c).value);
    }
  }

  ghost predicate Connects(libs: Libraries, c: Credentials, own: Credentials) {
    && OwnSecrets(libs, c, own)
    && libs.restConfig(own).Some? && libs.client(libs.restConfig(own).value).Some?
  }

  lemma RegisterAgrees(libs: Libraries, fns: seq<nat>, r: Registry, id: string, c: Credentials)
    requires Agree(libs, fns, r)
    ensures var after := Register(libs, fns, r, id, c);
            Agree(libs, fns, after.0) && (!after.1 ==> after.0 == r) && (after.1 ==> id in after.0.registered)
  {
    var r' := Register(libs, fns, r, id, c).0;
    forall other | other in r'.registered ensures EntryAgrees(libs, fns, r', other) {
      if other != id {
        assert EntryAgrees(libs, fns, r, other);
      } else if id in r.registered {
        assert EntryAgrees(libs, fns, r, id);
      }
    }
  }

  lemma UnregisterAgrees(libs: Libraries, fns: seq<nat>, r: Registry, id: string, removes: bool)
    requires Agree(libs, fns, r)
    ensures var after := Unregister(r, id, removes);
            Agree(libs, fns, after.0) && (!after.1 ==> after.0 == r) && (after.1 ==> id !in after.0.registered)
  {
    var r' := Unregister(r, id, removes).0;
    forall other | other in r'.registered ensures EntryAgrees(libs, fns, r', other) {
      assert EntryAgrees(libs, fns, r, other);
      if id in r.registered {
        assert EntryAgrees(libs, fns, r, id);
      }
    }
  }

  lemma StepAgrees(libs: Libraries, fns: seq<nat>, s: System, step: Step)
    requires Agree(libs, fns, s.registry) && Enabled(s, step)
    ensures Agree(libs, fns, Next(libs, fns, s, step).registry)
  {
    match step
    case CallRegister(id, c) => RegisterAgrees(libs, fns, s.registry, id, c);
    case CallUnregister(id, removes) => UnregisterAgrees(libs, fns, s.registry, id, removes);
    case FirstHalf(_, id, _, removes) => UnregisterAgrees(libs, fns, s.registry, id, removes);
    case SecondHalf(caller) => RegisterAgrees(libs, fns, s.registry, s.between[caller].0, s.between[caller].1);
  }

  // Under every interleaving of calls and of the halves of re-registrations,
  // the registry and the supervisor agree.
  lemma {:induction false} AlwaysAgree(libs: Libraries, fns: seq<nat>, s: System, steps: seq<Step>, end: System)
    requires Agree(libs, fns, s.registry) && Run(libs, fns, s, steps, end)
    ensures Agree(libs, fns, end.registry)
    decreases |steps|
  {
    if steps != [] {
      StepAgrees(libs, fns, s, steps[0]);
      AlwaysAgree(libs, fns, Next(libs, fns, s, steps[0]), steps[1..], end);
    }
  }

  lemma NewManagerAgrees(libs: Libraries, fns: seq<nat>)
    ensures Agree(libs, fns, Registry(map[], map[], 0))
  {}

  // Agreement is a bijection: tokens and clusters determine each other, and
  // there are as many services as registered clusters.
  lemma AgreementIsBijection(libs: Libraries, fns: seq<nat>, r: Registry)
    requires Agree(libs, fns, r)
    ensures forall a, b :: a in r.registered && b in r.registered && a != b ==>
            r.registered[a].serviceID != r.registered[b].serviceID
    ensures (set id | id in r.registered :: r.registered[id].serviceID) == r.live.Keys
    ensures |r.live| == |r.registered|
  {
    assert forall id :: id in r.registered ==> EntryAgrees(libs, fns, r, id);
    SameSize(r.registered.Keys, r.live.Keys, id requires id in r.registered => r.registered[id].serviceID);
  }

  // An injective image is as large as its source.
  lemma {:induction false} SameSize(ids: set<string>, tokens: set<nat>, f: string --> nat)
    requires forall id :: id in ids ==> f.requires(id)
    requires forall a, b :: a in ids && b in ids && f(a) == f(b) ==> a == b
    requires tokens == set id | id in ids :: f(id)
    ensures |tokens| == |ids|
  {
    if ids != {} {
      var id :| id in ids;
      var t := f(id);
      var fewer := tokens - {t};
      assert fewer == set other | other in ids - {id} :: f(other);
      SameSize(ids - {id}, fewer, f);
    }
  }

  // What a caller who asks for a cluster's configuration learns: there is one
  // exactly when a live service serves the cluster, and it is the one that the
  // registered credentials connect with.
  lemma ConfigurationMeansService(libs: Libraries, fns: seq<nat>, r: Registry, id: string)
    requires Agree(libs, fns, r)
    ensures id in r.registered <==> exists t :: t in r.live && r.live[t] == id
    ensures id in r.registered ==>
              var control := r.registered[id];
              && libs.restConfig(control.credentials) == Some(control.restConfig)
              && forall t :: t in r.live && r.live[t] == id ==> t == control.serviceID
  {
    if id in r.registered {
      assert EntryAgrees(libs, fns, r, id);
    }
  }

  // A re-registration that succeeds leaves its own credentials registered
  // exactly when nobody registered the cluster between its halves, or did so
  // with what decrypts to the same. Credentials that do not connect at all never
  // get there, and still the call succeeds if somebody registered the cluster.
  lemma ReRegisteredCredentials(libs: Libraries, fns: seq<nat>, s: System, caller: nat)
    requires caller in s.between
    requires var (id, c) := s.between[caller]; Register(libs, fns, s.registry, id, c).1
    ensures var (id, c) := s.between[caller];
            var after := Next(libs, fns, s, SecondHalf(caller)).registry;
            && id in after.registered
            && (OwnCredentials(libs, after, id, c) <==>
                id in s.registry.registered ==> OwnCredentials(libs, s.registry, id, c))
  {}

  // The credentials registered are what these decrypt to, and they connect.
  predicate OwnCredentials(libs: Libraries, r: Registry, id: string, c: Credentials) {
    && id in r.registered
    && Connected(libs, c).Some?
    && r.registered[id].credentials == Connected(libs, c).value.0
  }

  // Such an interleaving exists: caller 1 rotates to new credentials while
  // another call registers the old ones again; both succeed and the old ones stay.
  lemma RotationCanBeLost(libs: Libraries, fns: seq<nat>, stale: Credentials, rotated: Credentials)
      returns (end: System)
    requires Connected(libs, stale).Some? && Connected(libs, rotated).Some?
    requires Connected(libs, stale).value.0 != Connected(libs, rotated).value.0
    ensures Run(libs, fns, System(Registry(map[], map[], 0), map[]),
                [CallRegister("c", stale), FirstHalf(1, "c", rotated, true), CallRegister("c", stale), SecondHalf(1)],
                    end)
    ensures end.between == map[] && "c" in end.registry.registered
    ensures end.registry.registered["c"].credentials == Connected(libs, stale).value.0
  {
    var start := System(Registry(map[], map[], 0), map[]);
    var one, two, three, four := CallRegister("c", stale), FirstHalf(1, "c", rotated, true), CallRegister("c", stale),
        SecondHalf(1);
    var s1 := Next(libs, fns, start, one);
    var s2 := Next(libs, fns, s1, two);
    var s3 := Next(libs, fns, s2, three);
    end := Next(libs, fns, s3, four);
    assert Run(libs, fns, end, [], end);
    RunCons(libs, fns, s3, four, [], end);
    RunCons(libs, fns, s2, three, [four], end);
    RunCons(libs, fns, s1, two, [three, four], end);
    RunCons(libs, fns, start, one, [two, three, four], end);
    assert [one] + [two, three, four] == [one, two, three, four];
    assert [two] + [three, four] == [two, three, four] && [three] + [four] == [three, four] && [four] + [] == [four];
  }

  lemma RunCons(libs: Libraries, fns: seq<nat>, s: System, step: Step, steps: seq<Step>, end: System)
    requires Enabled(s, step) && Run(libs, fns, Next(libs, fns, s, step), steps, end)
    ensures Run(libs, fns, s, [step] + steps, end)
  {
    assert ([step] + steps)[1..] == steps;
  }
}
