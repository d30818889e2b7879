/** hooks/common.py: the RethinkDB service definition. `ClusterPeers` turns
    each complete peer unit into `--join address:29015`, `manage()` lists
    the providers whose arguments make up `docker run`, and the hook name
    picks between `install()` and `manage()`. */
module Common {
  import opened Wrappers
  import opened Text
  import opened Seqs
  import opened ServiceHelpers
  import opened Docker
  import Peers
  import Hookenv

  const ClusterName := "intracluster"
  const ClusterInterface := "rethinkdb-cluster"
  const AddressKey := "private-address"
  const ClusterRequiredKeys: seq<string> := [AddressKey]
  const ClusterPort: nat := 29015

  /** `ClusterPeers.map(relation_settings)`: `--join` and
      `'{}:{}'.format(relation_settings['private-address'], 29015)`; a unit
      without the key raises KeyError. */
  function ClusterPeersMap(settings: UnitData): (r: Result<seq<string>, Error>)
    ensures r.Failure? <==> AddressKey !in Keys(settings)
    ensures r.Failure? ==> r.error == KeyError(AddressKey)
  {
    match Lookup(settings, AddressKey)
    case None => Failure(KeyError(AddressKey))
    case Some(address) => Success(["--join", address + ":" + NatToString(ClusterPort)])
  }

  /** The private address of a unit, empty when it has none. */
  function PrivateAddress(settings: UnitData): string
  {
    match Lookup(settings, AddressKey)
    case None => ""
    case Some(address) => address
  }

  /** `map` reads `private-address` and nothing else: two units that agree
      on it give the same arguments, whatever else they hold. */
  lemma ClusterPeersMapReadsAddress(u: UnitData, v: UnitData)
    requires Lookup(u, AddressKey) == Lookup(v, AddressKey)
    ensures ClusterPeersMap(u) == ClusterPeersMap(v)
  {
  }

  /** A complete unit (one holding every required key) always maps, to
      exactly the two tokens `cli_peers` gives for its address. */
  lemma ClusterPeersMapTokens(u: UnitData)
    requires IsReadyUnit(ClusterRequiredKeys, u)
    ensures ClusterPeersMap(u).Success?
    ensures ClusterPeersMap(u).value == Peers.JoinTokens(ClusterPort)(PrivateAddress(u))
    ensures |ClusterPeersMap(u).value| == 2 && ClusterPeersMap(u).value[0] == "--join"
    ensures ClusterPeersMap(u).value[1] == PrivateAddress(u) + ":29015"
  {
    assert AddressKey in ClusterRequiredKeys;
    Peers.JoinTargetDefault(PrivateAddress(u));
  }

  /** `build_args` of `ClusterPeers` over complete units: one `--join`
      pair per unit, in the stored order. */
  lemma {:induction false} ClusterRelationArgs(units: seq<UnitData>)
    requires forall i :: 0 <= i < |units| ==> IsReadyUnit(ClusterRequiredKeys, units[i])
    ensures RelationArgs(units, ClusterPeersMap) == Success(FlatMap(Map(units, PrivateAddress), Peers.JoinTokens(ClusterPort)))
  {
    if units != [] {
      var p, u := units[..|units| - 1], units[|units| - 1];
      ClusterRelationArgs(p);
      ClusterPeersMapTokens(u);
      assert Map(units, PrivateAddress) == Map(p, PrivateAddress) + [PrivateAddress(u)];
      FlatMapSnoc(Map(p, PrivateAddress), PrivateAddress(u), Peers.JoinTokens(ClusterPort));
    }
  }

  /** `ClusterPeers()`: the relation context built by the constructor's
      `get_data`, as a container-argument provider. */
  function ClusterPeersProvider(env: Env): (r: Result<Provider, Error>)
    ensures r.Failure? <==> FreshContext(env, ClusterName, ClusterRequiredKeys).Failure?
    ensures r.Success? ==> r.value.Relation? && IsInstance(r.value, ContainerKind)
  {
    match FreshContext(env, ClusterName, ClusterRequiredKeys)
    case Failure(e) => Failure(e)
    case Success(data) => Success(Relation(StoredUnits(data, ClusterName), ClusterPeersMap))
  }

  /** The units of `ClusterPeers()` are all complete, so its `build_args`
      never raises. */
  lemma ClusterPeersReady(env: Env)
    requires ClusterPeersProvider(env).Success?
    ensures var units := ClusterPeersProvider(env).value.units;
      forall i :: 0 <= i < |units| ==> IsReadyUnit(ClusterRequiredKeys, units[i])
  {
    if RelationIds(env, ClusterName) != [] {
      CollectedAllReady(env, ClusterName, ClusterRequiredKeys);
    }
  }

  const WebsiteName := "website"
  const WebsiteInterface := "http"

  const ServiceName := "dockerfile/rethinkdb"
  const ServicePorts: seq<nat> := [80, 28015, 29015]
  /** The `DockerPortMappings` dict; Python 2 does not fix its iteration
      order, this is one order. */
  const PortMap: seq<(nat, nat)> := [(80, 8080), (28015, 28015), (29015, 29015)]
  const StoragePathKey := "storage-path"
  const DataDir := "/rethinkdb"

  /** The positional `DockerContainerArgs` of `manage()`. */
  function RethinkArgs(publicAddress: string, privateAddress: string, hostname: string): seq<string>
  {
    ["rethinkdb", "--bind", "all",
     "--canonical-address", publicAddress,
     "--canonical-address", privateAddress,
     "--machine-name", ReplaceChar(hostname, '-', '_')]
  }

  /** The service definition `manage()` hands to the service manager. */
  datatype Service = Service(
    name: string,
    ports: seq<nat>,
    provided: seq<map<string, seq<UnitData>>>,
    required: seq<Provider>)

  /** `manage()` up to the service manager: the config (its string
      values), the unit's addresses and host name are inputs. The providers
      are built in the order Python evaluates them: `WebsiteRelation()`,
      `config['storage-path']`, then `ClusterPeers()`. */
  function Manage(env: Env, config: map<string, string>, publicAddress: string, privateAddress: string, hostname: string)
    : (r: Result<Service, Error>)
    ensures FreshContext(env, WebsiteName, []).Failure? ==> r == Failure(FreshContext(env, WebsiteName, []).error)
    ensures FreshContext(env, WebsiteName, []).Success? && StoragePathKey !in config ==> r == Failure(KeyError(StoragePathKey))
    ensures r.Success? <==>
      FreshContext(env, WebsiteName, []).Success? && StoragePathKey in config &&
      FreshContext(env, ClusterName, ClusterRequiredKeys).Success?
    ensures r.Success? ==> r.value.name == ServiceName && r.value.ports == ServicePorts && |r.value.required| == 4
  {
    match FreshContext(env, WebsiteName, [])
    case Failure(e) => Failure(e)
    case Success(website) =>
      if StoragePathKey !in config then Failure(KeyError(StoragePathKey))
      else
        match ClusterPeersProvider(env)
        case Failure(e) => Failure(e)
        case Success(peers) =>
          Success(Service(ServiceName, ServicePorts, [website],
            RequiredData(PortMap, config[StoragePathKey], RethinkArgs(publicAddress, privateAddress, hostname), peers)))
  }

  /** The `required_data` list: port mappings, the storage volume, the
      RethinkDB arguments, then the peers. */
  function RequiredData(ports: seq<(nat, nat)>, storagePath: string, containerArgs: seq<string>, peers: Provider): seq<Provider>
  {
    [PortMappings(ports),
     NewVolumes([], [], [(storagePath, DataDir)]).value,
     ContainerArgs(containerArgs),
     peers]
  }

  /** What one provider adds to `_get_args(kind)`. */
  function Contribution(p: Provider, kind: Kind, charmDir: string): seq<string>
    requires !p.OtherContext?
  {
    if IsInstance(p, kind) && ProviderArgs(p, charmDir).Success? then ProviderArgs(p, charmDir).value else []
  }

  /** `_get_args` over four providers whose arguments build. */
  lemma ArgsOfFour(a: Provider, b: Provider, c: Provider, d: Provider, kind: Kind, charmDir: string)
    requires !a.OtherContext? && !b.OtherContext? && !c.OtherContext? && !d.OtherContext?
    requires ProviderArgs(a, charmDir).Success? && ProviderArgs(b, charmDir).Success?
    requires ProviderArgs(c, charmDir).Success? && ProviderArgs(d, charmDir).Success?
    ensures ArgsOfKind([a, b, c, d], kind, charmDir) ==
      Success(Contribution(a, kind, charmDir) + Contribution(b, kind, charmDir) +
              Contribution(c, kind, charmDir) + Contribution(d, kind, charmDir))
  {
    ArgsOfKindSingle(a, kind, charmDir);
    ArgsOfKindSingle(b, kind, charmDir);
    ArgsOfKindSingle(c, kind, charmDir);
    ArgsOfKindSingle(d, kind, charmDir);
    ArgsOfKindAppend([a], [b], kind, charmDir);
    assert [a] + [b] == [a, b];
    ArgsOfKindAppend([a, b], [c], kind, charmDir);
    assert [a, b] + [c] == [a, b, c];
    ArgsOfKindAppend([a, b, c], [d], kind, charmDir);
    assert [a, b, c] + [d] == [a, b, c, d];
  }

  /** The single mapped volume: the storage path (from the charm directory
      when relative) mounted on `/rethinkdb`. */
  lemma StorageVolumeArgs(storagePath: string, charmDir: string)
    ensures VolumeArgs([], [], [(storagePath, DataDir)], charmDir) == ["-v", HostPath(charmDir, storagePath) + ":" + DataDir]
  {
    FlatMapSnoc([], (storagePath, DataDir), MappedTokens(charmDir));
    assert [] + [(storagePath, DataDir)] == [(storagePath, DataDir)];
    assert FlatMap([(storagePath, DataDir)], MappedTokens(charmDir)) == MappedTokens(charmDir)((storagePath, DataDir));
  }

  /** Of the `required_data`, only the storage volume is a volume. */
  lemma RequiredVolumeArgs(ports: seq<(nat, nat)>, storagePath: string, args: seq<string>, peers: Provider, charmDir: string)
    requires peers.Relation? && ProviderArgs(peers, charmDir).Success?
    ensures ArgsOfKind(RequiredData(ports, storagePath, args, peers), VolumeKind, charmDir)
      == Success(["-v", HostPath(charmDir, storagePath) + ":" + DataDir])
  {
    StorageVolumeArgs(storagePath, charmDir);
    var volumes := Volumes([], [], [(storagePath, DataDir)]);
    ArgsOfFour(PortMappings(ports), volumes, ContainerArgs(args), peers, VolumeKind, charmDir);
    var mount := VolumeArgs([], [], [(storagePath, DataDir)], charmDir);
    assert Contribution(volumes, VolumeKind, charmDir) == mount;
    assert [] + mount + [] + [] == mount;
  }

  /** Of the `required_data`, only the port mappings map ports. */
  lemma RequiredPortArgs(ports: seq<(nat, nat)>, storagePath: string, args: seq<string>, peers: Provider, charmDir: string)
    requires peers.Relation? && ProviderArgs(peers, charmDir).Success?
    ensures ArgsOfKind(RequiredData(ports, storagePath, args, peers), PortKind, charmDir) == Success(PortArgs(ports))
  {
    var volumes := Volumes([], [], [(storagePath, DataDir)]);
    ArgsOfFour(PortMappings(ports), volumes, ContainerArgs(args), peers, PortKind, charmDir);
    assert Contribution(PortMappings(ports), PortKind, charmDir) == PortArgs(ports);
    assert PortArgs(ports) + [] + [] + [] == PortArgs(ports);
  }

  /** The container arguments are the positional arguments followed by the
      arguments of the peers: `DockerContainerArgs` comes before
      `ClusterPeers()` in `required_data`, and a `DockerRelation` counts as
      container arguments. */
  lemma RequiredContainerArgs(ports: seq<(nat, nat)>, storagePath: string, args: seq<string>, peers: Provider, charmDir: string)
    requires peers.Relation? && ProviderArgs(peers, charmDir).Success?
    ensures ArgsOfKind(RequiredData(ports, storagePath, args, peers), ContainerKind, charmDir)
      == Success(args + ProviderArgs(peers, charmDir).value)
  {
    var volumes := Volumes([], [], [(storagePath, DataDir)]);
    ArgsOfFour(PortMappings(ports), volumes, ContainerArgs(args), peers, ContainerKind, charmDir);
    var joins := ProviderArgs(peers, charmDir).value;
    assert Contribution(PortMappings(ports), ContainerKind, charmDir) == [];
    assert Contribution(volumes, ContainerKind, charmDir) == [];
    assert Contribution(ContainerArgs(args), ContainerKind, charmDir) == args;
    assert Contribution(peers, ContainerKind, charmDir) == joins;
    assert [] + [] + args + joins == args + joins;
  }

  /** The peers `ClusterPeers()` holds: the complete units of the
      `intracluster` relation. */
  function ClusterUnits(env: Env): seq<UnitData>
    requires FreshContext(env, ClusterName, ClusterRequiredKeys).Success?
  {
    StoredUnits(FreshContext(env, ClusterName, ClusterRequiredKeys).value, ClusterName)
  }

  /** The `docker run` of the `start` event: the storage volume, the three
      port mappings, the image, the RethinkDB arguments, and last one
      `--join address:29015` pair per complete peer, in stored order. */
  lemma RethinkRunCommand(env: Env, config: map<string, string>, publicAddress: string, privateAddress: string,
                          hostname: string, cidFile: string, charmDir: string)
    requires Manage(env, config, publicAddress, privateAddress, hostname).Success?
    ensures var s := Manage(env, config, publicAddress, privateAddress, hostname).value;
      RunCommand(cidFile, s.name, s.required, charmDir) == Success(
        ["docker", "run", "-d", "-cidfile", cidFile]
        + ["-v", HostPath(charmDir, config[StoragePathKey]) + ":" + DataDir]
        + PortArgs(PortMap)
        + [ServiceName]
        + RethinkArgs(publicAddress, privateAddress, hostname)
        + FlatMap(Map(ClusterUnits(env), PrivateAddress), Peers.JoinTokens(ClusterPort)))
  {
    var units := ClusterUnits(env);
    ClusterPeersReady(env);
    ClusterRelationArgs(units);
    var peers := Relation(units, ClusterPeersMap);
    var rethink := RethinkArgs(publicAddress, privateAddress, hostname);
    var sp := config[StoragePathKey];
    ServiceRunCommand(PortMap, sp, rethink, peers, cidFile, charmDir);
    assert Manage(env, config, publicAddress, privateAddress, hostname).value.required == RequiredData(PortMap, sp, rethink, peers);
  }

  /** `docker run` over the `required_data` of `manage()`, whatever the
      port map, storage path, positional arguments and peers. */
  lemma ServiceRunCommand(ports: seq<(nat, nat)>, storagePath: string, args: seq<string>, peers: Provider,
                          cidFile: string, charmDir: string)
    requires peers.Relation? && ProviderArgs(peers, charmDir).Success?
    ensures RunCommand(cidFile, ServiceName, RequiredData(ports, storagePath, args, peers), charmDir) == Success(
      ["docker", "run", "-d", "-cidfile", cidFile]
      + ["-v", HostPath(charmDir, storagePath) + ":" + DataDir]
      + PortArgs(ports)
      + [ServiceName]
      + args
      + ProviderArgs(peers, charmDir).value)
  {
    RequiredVolumeArgs(ports, storagePath, args, peers, charmDir);
    RequiredPortArgs(ports, storagePath, args, peers, charmDir);
    RequiredContainerArgs(ports, storagePath, args, peers, charmDir);
    var head := ["docker", "run", "-d", "-cidfile", cidFile] + ["-v", HostPath(charmDir, storagePath) + ":" + DataDir]
      + PortArgs(ports) + [ServiceName];
    var joins := ProviderArgs(peers, charmDir).value;
    assert head + (args + joins) == head + args + joins;
  }

  /** The run command carries one `--join` per complete peer. */
  lemma RethinkJoinCount(env: Env)
    requires FreshContext(env, ClusterName, ClusterRequiredKeys).Success?
    ensures Count(FlatMap(Map(ClusterUnits(env), PrivateAddress), Peers.JoinTokens(ClusterPort)), "--join") == |ClusterUnits(env)|
  {
    Peers.JoinCount(Map(ClusterUnits(env), PrivateAddress), ClusterPort);
    MapAt(ClusterUnits(env), PrivateAddress);
  }

  /** The port mappings expand to `-p 80:8080 -p 28015:28015 -p 29015:29015`. */
  lemma RethinkPortArgs()
    ensures PortArgs(PortMap) == ["-p", "80:8080", "-p", "28015:28015", "-p", "29015:29015"]
  {
    PortArgsOfThree((80, 8080), (28015, 28015), (29015, 29015));
    WebPortSpec();
    DriverPortSpec();
    ClusterPortSpec();
  }

  lemma PortArgsOfThree(a: (nat, nat), b: (nat, nat), c: (nat, nat))
    ensures PortArgs([a, b, c]) == ["-p", PortSpec(a.0, a.1), "-p", PortSpec(b.0, b.1), "-p", PortSpec(c.0, c.1)]
  {
    FlatMapThree(a, b, c, PortTokens);
  }

  // The three port specs, printed digit by digit; each is its own lemma so
  // that `RethinkPortArgs` stays within the solver's budget.

  lemma WebPortSpec()
    ensures PortSpec(80, 8080) == "80:8080"
  {
    assert NatToString(8) == "8";
    assert NatToString(80) == "80";
    assert NatToString(808) == "808";
    assert NatToString(8080) == "8080";
  }

  lemma DriverPortSpec()
    ensures PortSpec(28015, 28015) == "28015:28015"
  {
    assert NatToString(2) == "2";
    assert NatToString(28) == "28";
    assert NatToString(280) == "280";
    assert NatToString(2801) == "2801";
  }

  lemma ClusterPortSpec()
    ensures PortSpec(29015, 29015) == "29015:29015"
  {
    NatToString29015();
  }

  /** `WebsiteRelation.provide_data()`: the unit's own address and port 80,
      where the default `provide_data` publishes nothing. */
  function WebsiteProvideData(privateIp: string): map<string, Hookenv.Value>
  {
    map["hostname" := Hookenv.Str(privateIp), "port" := Hookenv.Int(80)]
  }

  /** What the `http` relation publishes points at the RethinkDB web
      console: the host name is the address RethinkDB advertises as its
      second `--canonical-address`, and the port is the host port that
      `docker run` maps to the console's port 8080. */
  lemma WebsiteServesConsole(publicAddress: string, privateAddress: string, hostname: string)
    ensures var m := WebsiteProvideData(privateAddress);
      var args := RethinkArgs(publicAddress, privateAddress, hostname);
      args[5] == "--canonical-address" && m["hostname"] == Hookenv.Str(args[6]) &&
      PortMap[0].1 == 8080 && m["port"] == Hookenv.Int(PortMap[0].0) &&
      PortArgs(PortMap)[1] == PortSpec(PortMap[0].0, 8080) && PortMap[0].0 in ServicePorts
  {
    PortArgsOfThree(PortMap[0], PortMap[1], PortMap[2]);
  }

  /** The hooks the charm's entry point tells apart. */
  datatype HookAction = RunInstall | RunManage

  /** The `__main__` block: `install()` for the `install` hook, `manage()`
      for every other hook name (`hook_name()` is the basename of
      `argv[0]`). */
  function Dispatch(argv0: string): HookAction
  {
    if Basename(argv0) == "install" then RunInstall else RunManage
  }

  /** A hook run as `<dir>/<name>`: `install` installs, every other name
      manages. */
  lemma DispatchHook(dir: string, name: string)
    requires '/' !in name
    ensures Dispatch(dir + "/" + name) == if name == "install" then RunInstall else RunManage
  {
    BasenameAfterSlash(dir, name);
  }

  /** The command `install()` runs after installing Docker: it pulls the
      image that `manage()` runs. */
  function InstallPull(): seq<string>
  {
    ["docker", "pull", ServiceName]
  }

  /** The image `install` pulls is the image `start` runs. */
  lemma PullsImageItRuns(env: Env, config: map<string, string>, publicAddress: string, privateAddress: string,
                         hostname: string, cidFile: string, charmDir: string)
    requires Manage(env, config, publicAddress, privateAddress, hostname).Success?
    ensures var s := Manage(env, config, publicAddress, privateAddress, hostname).value;
      var run := RunCommand(cidFile, s.name, s.required, charmDir);
      run.Success? && |run.value| > 7 + |PortArgs(PortMap)| && run.value[7 + |PortArgs(PortMap)|] == InstallPull()[2]
  {
    RethinkRunCommand(env, config, publicAddress, privateAddress, hostname, cidFile, charmDir);
  }
}
