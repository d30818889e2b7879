/** charmhelpers.contrib.docker: the providers that contribute arguments to
    `docker run` (port mappings, volumes, container arguments and relation
    arguments), `_get_args`, which gathers them by kind, and
    `DockerCallback`, which stops the tracked container and, on `start`,
    runs a new one. */
module Docker {
  import opened Wrappers
  import opened Text
  import opened Seqs
  import opened ServiceHelpers

  /** The `map` of a `DockerRelation`: the container arguments for one
      unit's settings. */
  type UnitMapper = UnitData -> Result<seq<string>, Error>

  /** An entry of a service's `required_data`. Dicts the source iterates
      are sequences of pairs, in the dict's iteration order. */
  datatype Provider =
    | PortMappings(ports: seq<(nat, nat)>)
    | Volumes(volumes: seq<string>, named: seq<(string, string)>, mapped: seq<(string, string)>)
    | ContainerArgs(args: seq<string>)
      /** A `DockerRelation`: `units` is the list it holds under its name. */
    | Relation(units: seq<UnitData>, mapUnit: UnitMapper)
      /** Any other relation context, which has no `build_args`. */
    | OtherContext

  /** The classes `_get_args` is asked for. */
  datatype Kind = PortKind | VolumeKind | ContainerKind

  /** `isinstance(provider, arg_type)`: `DockerRelation` subclasses
      `DockerContainerArgs`. */
  predicate IsInstance(p: Provider, kind: Kind)
  {
    match kind
    case PortKind => p.PortMappings?
    case VolumeKind => p.Volumes?
    case ContainerKind => p.ContainerArgs? || p.Relation?
  }

  /** `'{}:{}'.format(src, dst)`. */
  function PortSpec(src: nat, dst: nat): string
  {
    NatToString(src) + ":" + NatToString(dst)
  }

  function PortTokens(port: (nat, nat)): seq<string>
  {
    ["-p", PortSpec(port.0, port.1)]
  }

  /** What `DockerPortMappings.build_args` returns. */
  function PortArgs(ports: seq<(nat, nat)>): seq<string>
  {
    FlatMap(ports, PortTokens)
  }

  /** Two tokens per mapping: `-p`, then `src:dst`. */
  lemma PortArgsShape(ports: seq<(nat, nat)>)
    ensures |PortArgs(ports)| == 2 * |ports|
    ensures forall i :: 0 <= i < |ports| ==>
      PortArgs(ports)[2 * i] == "-p" && PortArgs(ports)[2 * i + 1] == PortSpec(ports[i].0, ports[i].1)
  {
    FlatMapUniform(ports, PortTokens, 2);
    forall i | 0 <= i < |ports|
      ensures PortArgs(ports)[2 * i] == "-p" && PortArgs(ports)[2 * i + 1] == PortSpec(ports[i].0, ports[i].1)
    {
      FlatMapAt(ports, PortTokens, 2, i, 0);
      FlatMapAt(ports, PortTokens, 2, i, 1);
    }
  }

  /** How Docker reads a `src:dst` token back. */
  function ParsePortSpec(t: string): Option<(nat, nat)>
  {
    if ':' !in t then None
    else
      var i := IndexOf(t, ':');
      if IsDigits(t[..i]) && IsDigits(t[i + 1..]) then Some((DecimalValue(t[..i]), DecimalValue(t[i + 1..])))
      else None
  }

  /** A port token names the mapping it was made from. */
  lemma PortSpecRoundTrip(src: nat, dst: nat)
    ensures ParsePortSpec(PortSpec(src, dst)) == Some((src, dst))
  {
    var a, b := NatToString(src), NatToString(dst);
    var t := a + ":" + b;
    assert ':' !in a;
    IndexOfAppend(a, ":" + b, ':');
    assert t == a + (":" + b);
    assert t[..|a|] == a && t[|a| + 1..] == b;
    DecimalRoundTrip(src);
    DecimalRoundTrip(dst);
  }

  /** The assertion of `DockerVolumes.__init__`. */
  const NoVolumes := AssertionError("Must provide at least one of: volumes, named_volumes, mapped_volumes")

  /** `DockerVolumes(volumes, named_volumes, mapped_volumes)`; a missing
      argument is an empty one. */
  function NewVolumes(volumes: seq<string>, named: seq<(string, string)>, mapped: seq<(string, string)>): Result<Provider, Error>
  {
    if volumes == [] && named == [] && mapped == [] then Failure(NoVolumes)
    else Success(Volumes(volumes, named, mapped))
  }

  function AnonymousTokens(volume: string): seq<string>
  {
    ["-v", volume]
  }

  /** A named volume, `(name, volume)`. */
  function NamedTokens(named: (string, string)): seq<string>
  {
    ["-v", named.1, "--name", named.0]
  }

  /** A host path relative to the charm directory is taken from there. */
  function HostPath(charmDir: string, hostPath: string): string
  {
    if IsAbs(hostPath) then hostPath else PathJoin(charmDir, hostPath)
  }

  /** The test for an absolute path changes nothing, since `os.path.join`
      keeps an absolute second path as it is; under an absolute charm
      directory every host path handed to Docker is absolute, and it ends
      with the path given. */
  lemma HostPathIsJoin(charmDir: string, hostPath: string)
    ensures HostPath(charmDir, hostPath) == PathJoin(charmDir, hostPath)
    ensures IsAbs(charmDir) || IsAbs(hostPath) ==> IsAbs(HostPath(charmDir, hostPath))
    ensures var p := HostPath(charmDir, hostPath);
      |hostPath| <= |p| && p[|p| - |hostPath|..] == hostPath
  {
  }

  /** A mapped volume, `(host path, container path)`. */
  function MappedTokens(charmDir: string): ((string, string)) -> seq<string>
  {
    (mapped: (string, string)) => ["-v", HostPath(charmDir, mapped.0) + ":" + mapped.1]
  }

  /** What `DockerVolumes.build_args` returns. */
  function VolumeArgs(volumes: seq<string>, named: seq<(string, string)>, mapped: seq<(string, string)>, charmDir: string): seq<string>
  {
    FlatMap(volumes, AnonymousTokens) + FlatMap(named, NamedTokens) + FlatMap(mapped, MappedTokens(charmDir))
  }

  /** Anonymous volumes come first, two tokens each; then named volumes,
      four tokens each; then mapped volumes, two tokens each. */
  lemma VolumeArgsLength(volumes: seq<string>, named: seq<(string, string)>, mapped: seq<(string, string)>, charmDir: string)
    ensures |VolumeArgs(volumes, named, mapped, charmDir)| == 2 * |volumes| + 4 * |named| + 2 * |mapped|
  {
    FlatMapLength(volumes, AnonymousTokens, 2);
    FlatMapLength(named, NamedTokens, 4);
    FlatMapLength(mapped, MappedTokens(charmDir), 2);
  }

  /** The assertion of the constructor pays off: a `DockerVolumes` that
      could be built always adds at least one `-v` to `docker run`. */
  lemma NewVolumesContribute(volumes: seq<string>, named: seq<(string, string)>, mapped: seq<(string, string)>, charmDir: string)
    requires NewVolumes(volumes, named, mapped).Success?
    ensures var args := ProviderArgs(NewVolumes(volumes, named, mapped).value, charmDir);
      args.Success? && |args.value| >= 2 && args.value[0] == "-v"
  {
    VolumeArgsLength(volumes, named, mapped, charmDir);
    if volumes != [] {
      AnonymousVolumeArgs(volumes, named, mapped, charmDir, 0);
    } else if named != [] {
      NamedVolumeArgs(volumes, named, mapped, charmDir, 0);
    } else {
      MappedVolumeArgs(volumes, named, mapped, charmDir, 0);
    }
  }

  /** Each anonymous volume `v` gives `-v v`, at the front. */
  lemma AnonymousVolumeArgs(volumes: seq<string>, named: seq<(string, string)>, mapped: seq<(string, string)>, charmDir: string, i: nat)
    requires i < |volumes|
    ensures var args := VolumeArgs(volumes, named, mapped, charmDir);
      2 * i + 1 < |args| && args[2 * i] == "-v" && args[2 * i + 1] == volumes[i]
  {
    FlatMapAt(volumes, AnonymousTokens, 2, i, 0);
    FlatMapAt(volumes, AnonymousTokens, 2, i, 1);
  }

  /** Each named volume gives `-v volume --name name`, after the anonymous
      ones. */
  lemma NamedVolumeArgs(volumes: seq<string>, named: seq<(string, string)>, mapped: seq<(string, string)>, charmDir: string, i: nat)
    requires i < |named|
    ensures var args, n := VolumeArgs(volumes, named, mapped, charmDir), 2 * |volumes|;
      n + 4 * i + 3 < |args| &&
      args[n + 4 * i] == "-v" && args[n + 4 * i + 1] == named[i].1 &&
      args[n + 4 * i + 2] == "--name" && args[n + 4 * i + 3] == named[i].0
  {
    FlatMapLength(volumes, AnonymousTokens, 2);
    FlatMapAt(named, NamedTokens, 4, i, 0);
    FlatMapAt(named, NamedTokens, 4, i, 1);
    FlatMapAt(named, NamedTokens, 4, i, 2);
    FlatMapAt(named, NamedTokens, 4, i, 3);
  }

  /** Each mapped volume gives `-v host:container`, last, with a relative
      host path taken under the charm directory. */
  lemma MappedVolumeArgs(volumes: seq<string>, named: seq<(string, string)>, mapped: seq<(string, string)>, charmDir: string, i: nat)
    requires i < |mapped|
    ensures var args, m := VolumeArgs(volumes, named, mapped, charmDir), 2 * |volumes| + 4 * |named|;
      m + 2 * i + 1 < |args| &&
      args[m + 2 * i] == "-v" && args[m + 2 * i + 1] == HostPath(charmDir, mapped[i].0) + ":" + mapped[i].1
  {
    FlatMapLength(volumes, AnonymousTokens, 2);
    FlatMapLength(named, NamedTokens, 4);
    FlatMapAt(mapped, MappedTokens(charmDir), 2, i, 0);
    FlatMapAt(mapped, MappedTokens(charmDir), 2, i, 1);
  }

  /** A keyword argument `key=value`. */
  function KeywordTokens(kv: (string, string)): seq<string>
  {
    ["--" + ReplaceChar(kv.0, '_', '-'), kv.1]
  }

  /** `DockerContainerArgs(*args, **kwargs)`: the positional arguments, then
      the keyword arguments. */
  method NewContainerArgs(positional: seq<string>, keywords: seq<(string, string)>) returns (p: Provider)
    ensures p == ContainerArgs(positional + FlatMap(keywords, KeywordTokens))
  {
    var args := positional;
    var i := 0;
    while i < |keywords|
      invariant 0 <= i <= |keywords|
      invariant args == positional + FlatMap(keywords[..i], KeywordTokens)
    {
      FlatMapSnoc(keywords[..i], keywords[i], KeywordTokens);
      assert keywords[..i + 1] == keywords[..i] + [keywords[i]];
      args := args + KeywordTokens(keywords[i]);
      i := i + 1;
    }
    assert keywords[..i] == keywords;
    p := ContainerArgs(args);
  }

  /** The positional arguments keep their order and come first; each keyword
      becomes `--key` with `_` turned into `-`, then its value. */
  lemma ContainerArgsShape(positional: seq<string>, keywords: seq<(string, string)>)
    ensures var args := positional + FlatMap(keywords, KeywordTokens);
      |args| == |positional| + 2 * |keywords| &&
      args[..|positional|] == positional &&
      forall i :: 0 <= i < |keywords| ==>
        args[|positional| + 2 * i] == "--" + ReplaceChar(keywords[i].0, '_', '-') &&
        '_' !in args[|positional| + 2 * i] &&
        args[|positional| + 2 * i + 1] == keywords[i].1
  {
    var k := FlatMap(keywords, KeywordTokens);
    FlatMapUniform(keywords, KeywordTokens, 2);
    var args := positional + k;
    forall i | 0 <= i < |keywords|
      ensures args[|positional| + 2 * i] == "--" + ReplaceChar(keywords[i].0, '_', '-') &&
        '_' !in args[|positional| + 2 * i] &&
        args[|positional| + 2 * i + 1] == keywords[i].1
    {
      FlatMapAt(keywords, KeywordTokens, 2, i, 0);
      FlatMapAt(keywords, KeywordTokens, 2, i, 1);
      KeywordFlagHasNoUnderscore(keywords[i].0);
    }
  }

  /** A keyword flag has no `_` left. */
  lemma KeywordFlagHasNoUnderscore(key: string)
    ensures '_' !in "--" + ReplaceChar(key, '_', '-')
  {
    var t := "--" + ReplaceChar(key, '_', '-');
    forall j | 0 <= j < |t| ensures t[j] != '_' {
      if j >= 2 {
        assert t[j] == ReplaceChar(key, '_', '-')[j - 2];
      }
    }
  }

  /** One setting `key: value`, as the default `DockerRelation.map` turns
      it into arguments. */
  function SettingTokens(kv: (string, string)): seq<string>
  {
    ["--" + kv.0, kv.1]
  }

  /** The default `DockerRelation.map`. */
  method DefaultMap(settings: UnitData) returns (args: seq<string>)
    ensures args == FlatMap(settings, SettingTokens)
  {
    args := [];
    var i := 0;
    while i < |settings|
      invariant 0 <= i <= |settings|
      invariant args == FlatMap(settings[..i], SettingTokens)
    {
      FlatMapSnoc(settings[..i], settings[i], SettingTokens);
      assert settings[..i + 1] == settings[..i] + [settings[i]];
      args := args + SettingTokens(settings[i]);
      i := i + 1;
    }
    assert settings[..i] == settings;
  }

  /** The default `map` as a mapper. */
  function DefaultMapper(settings: UnitData): Result<seq<string>, Error>
  {
    Success(FlatMap(settings, SettingTokens))
  }

  /** The default `map` gives `--key` then the value, for every setting. */
  lemma DefaultMapShape(settings: UnitData)
    ensures var args := FlatMap(settings, SettingTokens);
      |args| == 2 * |settings| &&
      forall i :: 0 <= i < |settings| ==> args[2 * i] == "--" + settings[i].0 && args[2 * i + 1] == settings[i].1
  {
    FlatMapUniform(settings, SettingTokens, 2);
    forall i | 0 <= i < |settings|
      ensures FlatMap(settings, SettingTokens)[2 * i] == "--" + settings[i].0
      ensures FlatMap(settings, SettingTokens)[2 * i + 1] == settings[i].1
    {
      FlatMapAt(settings, SettingTokens, 2, i, 0);
      FlatMapAt(settings, SettingTokens, 2, i, 1);
    }
  }

  /** What `DockerRelation.build_args` returns: `map(unit)` for every held
      unit, in order; the first failing `map` fails it. */
  function RelationArgs(units: seq<UnitData>, mapUnit: UnitMapper): Result<seq<string>, Error>
  {
    if units == [] then Success([])
    else
      match RelationArgs(units[..|units| - 1], mapUnit)
      case Failure(e) => Failure(e)
      case Success(args) =>
        match mapUnit(units[|units| - 1])
        case Failure(e) => Failure(e)
        case Success(more) => Success(args + more)
  }

  lemma {:induction false} RelationArgsFailureExtends(units: seq<UnitData>, k: nat, mapUnit: UnitMapper)
    requires k <= |units| && RelationArgs(units[..k], mapUnit).Failure?
    ensures RelationArgs(units, mapUnit) == Failure(RelationArgs(units[..k], mapUnit).error)
    decreases |units| - k
  {
    if k < |units| {
      assert units[..k + 1][..k] == units[..k];
      RelationArgsFailureExtends(units, k + 1, mapUnit);
    } else {
      assert units[..k] == units;
    }
  }

  /** With no units held, a relation adds no arguments; with the default
      `map`, it adds the flags of every setting of every unit, in order. */
  lemma {:induction false} RelationArgsDefault(units: seq<UnitData>)
    ensures units == [] ==> RelationArgs(units, DefaultMapper) == Success([])
    ensures RelationArgs(units, DefaultMapper) == Success(FlatMap(FlatMap(units, SettingsOfUnit), SettingTokens))
  {
    if units != [] {
      var p, u := units[..|units| - 1], units[|units| - 1];
      RelationArgsDefault(p);
      FlatMapSnoc(p, u, SettingsOfUnit);
      assert units == p + [u];
      FlatMapAppend(FlatMap(p, SettingsOfUnit), u, SettingTokens);
    }
  }

  function SettingsOfUnit(u: UnitData): UnitData
  {
    u
  }

  lemma {:induction false} FlatMapAppend<A, B>(s: seq<A>, t: seq<A>, f: A -> seq<B>)
    ensures FlatMap(s + t, f) == FlatMap(s, f) + FlatMap(t, f)
    decreases |t|
  {
    if t == [] {
      assert s + t == s;
    } else {
      var p := t[..|t| - 1];
      FlatMapAppend(s, p, f);
      assert (s + t)[..|s + t| - 1] == s + p;
      assert t[..|t| - 1] == p;
    }
  }

  method BuildRelationArgs(units: seq<UnitData>, mapUnit: UnitMapper) returns (r: Result<seq<string>, Error>)
    ensures r == RelationArgs(units, mapUnit)
  {
    var args: seq<string> := [];
    var i := 0;
    while i < |units|
      invariant 0 <= i <= |units|
      invariant RelationArgs(units[..i], mapUnit) == Success(args)
    {
      assert units[..i + 1][..i] == units[..i];
      var more := mapUnit(units[i]);
      if more.Failure? {
        RelationArgsFailureExtends(units, i + 1, mapUnit);
        return Failure(more.error);
      }
      args := args + more.value;
      i := i + 1;
    }
    assert units[..i] == units;
    r := Success(args);
  }

  /** `provider.build_args()`. */
  function ProviderArgs(p: Provider, charmDir: string): Result<seq<string>, Error>
    requires !p.OtherContext?
  {
    match p
    case PortMappings(ports) => Success(PortArgs(ports))
    case Volumes(volumes, named, mapped) => Success(VolumeArgs(volumes, named, mapped, charmDir))
    case ContainerArgs(args) => Success(args)
    case Relation(units, mapUnit) => RelationArgs(units, mapUnit)
  }

  method BuildPortArgs(ports: seq<(nat, nat)>) returns (args: seq<string>)
    ensures args == PortArgs(ports)
  {
    args := [];
    var i := 0;
    while i < |ports|
      invariant 0 <= i <= |ports|
      invariant args == FlatMap(ports[..i], PortTokens)
    {
      FlatMapSnoc(ports[..i], ports[i], PortTokens);
      assert ports[..i + 1] == ports[..i] + [ports[i]];
      args := args + ["-p", PortSpec(ports[i].0, ports[i].1)];
      i := i + 1;
    }
    assert ports[..i] == ports;
  }

  /** `DockerVolumes.build_args`; creating the host directories is not
      modelled. */
  method BuildVolumeArgs(volumes: seq<string>, named: seq<(string, string)>, mapped: seq<(string, string)>, charmDir: string)
    returns (args: seq<string>)
    ensures args == VolumeArgs(volumes, named, mapped, charmDir)
  {
    var anonymous := BuildAnonymousArgs(volumes);
    var names := BuildNamedArgs(named);
    var mounts := BuildMappedArgs(mapped, charmDir);
    args := anonymous + names + mounts;
  }

  /** The loop over `self.volumes`. */
  method BuildAnonymousArgs(volumes: seq<string>) returns (args: seq<string>)
    ensures args == FlatMap(volumes, AnonymousTokens)
  {
    args := [];
    var i := 0;
    while i < |volumes|
      invariant 0 <= i <= |volumes|
      invariant args == FlatMap(volumes[..i], AnonymousTokens)
    {
      FlatMapSnoc(volumes[..i], volumes[i], AnonymousTokens);
      assert volumes[..i + 1] == volumes[..i] + [volumes[i]];
      args := args + ["-v", volumes[i]];
      i := i + 1;
    }
    assert volumes[..i] == volumes;
  }

  /** The loop over `self.named_volumes`. */
  method BuildNamedArgs(named: seq<(string, string)>) returns (args: seq<string>)
    ensures args == FlatMap(named, NamedTokens)
  {
    args := [];
    var i := 0;
    while i < |named|
      invariant 0 <= i <= |named|
      invariant args == FlatMap(named[..i], NamedTokens)
    {
      FlatMapSnoc(named[..i], named[i], NamedTokens);
      assert named[..i + 1] == named[..i] + [named[i]];
      var (name, volume) := named[i];
      args := args + ["-v", volume, "--name", name];
      i := i + 1;
    }
    assert named[..i] == named;
  }

  /** The loop over `self.mapped_volumes`, host paths taken from the charm
      directory when relative. */
  method BuildMappedArgs(mapped: seq<(string, string)>, charmDir: string) returns (args: seq<string>)
    ensures args == FlatMap(mapped, MappedTokens(charmDir))
  {
    args := [];
    var i := 0;
    while i < |mapped|
      invariant 0 <= i <= |mapped|
      invariant args == FlatMap(mapped[..i], MappedTokens(charmDir))
    {
      FlatMapSnoc(mapped[..i], mapped[i], MappedTokens(charmDir));
      assert mapped[..i + 1] == mapped[..i] + [mapped[i]];
      var (hostPath, volume) := mapped[i];
      if !IsAbs(hostPath) {
        hostPath := PathJoin(charmDir, hostPath);
      }
      args := args + ["-v", hostPath + ":" + volume];
      i := i + 1;
    }
    assert mapped[..i] == mapped;
  }

  method BuildArgs(p: Provider, charmDir: string) returns (r: Result<seq<string>, Error>)
    requires !p.OtherContext?
    ensures r == ProviderArgs(p, charmDir)
  {
    match p
    case PortMappings(ports) =>
      var args := BuildPortArgs(ports);
      r := Success(args);
    case Volumes(volumes, named, mapped) =>
      var args := BuildVolumeArgs(volumes, named, mapped, charmDir);
      r := Success(args);
    case ContainerArgs(args) =>
      r := Success(args);
    case Relation(units, mapUnit) =>
      r := BuildRelationArgs(units, mapUnit);
  }

  /** What `_get_args(arg_type)` returns: the arguments of every provider of
      that kind, in `required_data` order. */
  function ArgsOfKind(providers: seq<Provider>, kind: Kind, charmDir: string): Result<seq<string>, Error>
  {
    if providers == [] then Success([])
    else
      match ArgsOfKind(providers[..|providers| - 1], kind, charmDir)
      case Failure(e) => Failure(e)
      case Success(args) =>
        var p := providers[|providers| - 1];
        if !IsInstance(p, kind) then Success(args)
        else
          match ProviderArgs(p, charmDir)
          case Failure(e) => Failure(e)
          case Success(more) => Success(args + more)
  }

  lemma {:induction false} ArgsOfKindFailureExtends(providers: seq<Provider>, k: nat, kind: Kind, charmDir: string)
    requires k <= |providers| && ArgsOfKind(providers[..k], kind, charmDir).Failure?
    ensures ArgsOfKind(providers, kind, charmDir) == Failure(ArgsOfKind(providers[..k], kind, charmDir).error)
    decreases |providers| - k
  {
    if k < |providers| {
      assert providers[..k + 1][..k] == providers[..k];
      ArgsOfKindFailureExtends(providers, k + 1, kind, charmDir);
    } else {
      assert providers[..k] == providers;
    }
  }

  /** Providers of other kinds contribute nothing; the providers of the kind
      contribute their arguments one after the other. */
  lemma {:induction false} ArgsOfKindAppend(a: seq<Provider>, b: seq<Provider>, kind: Kind, charmDir: string)
    requires ArgsOfKind(a, kind, charmDir).Success? && ArgsOfKind(b, kind, charmDir).Success?
    ensures ArgsOfKind(a + b, kind, charmDir) == Success(ArgsOfKind(a, kind, charmDir).value + ArgsOfKind(b, kind, charmDir).value)
    decreases |b|
  {
    if b == [] {
      assert a + b == a;
      assert ArgsOfKind(a, kind, charmDir).value + [] == ArgsOfKind(a, kind, charmDir).value;
    } else {
      var p, x := b[..|b| - 1], b[|b| - 1];
      assert (a + b)[..|a + b| - 1] == a + p && (a + b)[|a + b| - 1] == x;
      assert ArgsOfKind(p, kind, charmDir).Success?;
      ArgsOfKindAppend(a, p, kind, charmDir);
      var va, vp := ArgsOfKind(a, kind, charmDir).value, ArgsOfKind(p, kind, charmDir).value;
      if IsInstance(x, kind) {
        var more := ProviderArgs(x, charmDir).value;
        assert va + vp + more == va + (vp + more);
      }
    }
  }

  lemma {:induction false} ArgsOfKindSkips(providers: seq<Provider>, kind: Kind, charmDir: string)
    requires forall i :: 0 <= i < |providers| ==> !IsInstance(providers[i], kind)
    ensures ArgsOfKind(providers, kind, charmDir) == Success([])
  {
    if providers != [] {
      ArgsOfKindSkips(providers[..|providers| - 1], kind, charmDir);
    }
  }

  lemma ArgsOfKindSingle(p: Provider, kind: Kind, charmDir: string)
    ensures ArgsOfKind([p], kind, charmDir) ==
      if !IsInstance(p, kind) then Success([]) else ProviderArgs(p, charmDir)
  {
    assert [p][..0] == [];
    if IsInstance(p, kind) && ProviderArgs(p, charmDir).Success? {
      assert [] + ProviderArgs(p, charmDir).value == ProviderArgs(p, charmDir).value;
    }
  }

  /** `_get_args(manager, service_name, arg_type)`. */
  method GetArgs(providers: seq<Provider>, kind: Kind, charmDir: string) returns (r: Result<seq<string>, Error>)
    ensures r == ArgsOfKind(providers, kind, charmDir)
  {
    var args: seq<string> := [];
    var i := 0;
    while i < |providers|
      invariant 0 <= i <= |providers|
      invariant ArgsOfKind(providers[..i], kind, charmDir) == Success(args)
    {
      assert providers[..i + 1][..i] == providers[..i];
      var provider := providers[i];
      if IsInstance(provider, kind) {
        var more := BuildArgs(provider, charmDir);
        if more.Failure? {
          ArgsOfKindFailureExtends(providers, i + 1, kind, charmDir);
          return Failure(more.error);
        }
        args := args + more.value;
      }
      i := i + 1;
    }
    assert providers[..i] == providers;
    r := Success(args);
  }

  /** The file in the charm directory that records the running container. */
  const ContainerIdFile := "CONTAINER_ID"

  function StopCommand(containerId: string): seq<string>
  {
    ["docker", "stop", containerId]
  }

  /** The `docker run` command of the `start` event: volume arguments, port
      arguments, the service (image) name, then container arguments. */
  function RunCommand(cidFile: string, serviceName: string, providers: seq<Provider>, charmDir: string): Result<seq<string>, Error>
  {
    match ArgsOfKind(providers, VolumeKind, charmDir)
    case Failure(e) => Failure(e)
    case Success(volumes) =>
      match ArgsOfKind(providers, PortKind, charmDir)
      case Failure(e) => Failure(e)
      case Success(ports) =>
        match ArgsOfKind(providers, ContainerKind, charmDir)
        case Failure(e) => Failure(e)
        case Success(args) =>
          Success(["docker", "run", "-d", "-cidfile", cidFile] + volumes + ports + [serviceName] + args)
  }

  /** What `DockerCallback.__call__` does to the host, in order: a docker
      command, or the removal of the `CONTAINER_ID` record. */
  datatype Action = Command(argv: seq<string>) | RemoveRecord

  /** One run of `DockerCallback.__call__`: the record it leaves, what it
      did, and whether it raised. */
  datatype Step = Step(record: Option<string>, actions: seq<Action>, outcome: Outcome<Error>)

  /** `DockerCallback.__call__` over the `CONTAINER_ID` record: stop the
      recorded container and remove the record, then on `start` run a new
      container. `succeeds` is the exit status of each command, and
      `written` is what `docker run -cidfile` leaves in the record file,
      whether or not the run then fails. */
  function Callback(record: Option<string>, event: string, run: Result<seq<string>, Error>,
                    succeeds: seq<string> -> bool, written: Option<string>): Step
  {
    if record.Some? && !succeeds(StopCommand(record.value)) then
      Step(record, [Command(StopCommand(record.value))], Fail(CalledProcessError(StopCommand(record.value))))
    else
      var stops := if record.Some? then [Command(StopCommand(record.value)), RemoveRecord] else [];
      if event != "start" then Step(None, stops, Pass)
      else
        match run
        case Failure(e) => Step(None, stops, Fail(e))
        case Success(cmd) =>
          Step(written, stops + [Command(cmd)], if succeeds(cmd) then Pass else Fail(CalledProcessError(cmd)))
  }

  /** A recorded container is stopped first and its record removed before
      any `docker run`; a failed stop does nothing else and keeps the
      record. */
  lemma StopBeforeRun(record: Option<string>, event: string, run: Result<seq<string>, Error>,
                      succeeds: seq<string> -> bool, written: Option<string>)
    requires record.Some?
    ensures var s := Callback(record, event, run, succeeds, written);
      1 <= |s.actions| <= 3 && s.actions[0] == Command(StopCommand(record.value)) &&
      (!succeeds(StopCommand(record.value)) ==> |s.actions| == 1 && s.record == record && s.outcome.Fail?) &&
      (succeeds(StopCommand(record.value)) ==> |s.actions| >= 2 && s.actions[1] == RemoveRecord) &&
      (|s.actions| == 3 ==> event == "start" && run.Success? && s.actions[2] == Command(run.value))
  {
  }

  /** Only `start` runs a container: any other event ends with no record and
      no `docker run`, once the stop (if any) succeeded. */
  lemma OnlyStartLaunches(record: Option<string>, event: string, run: Result<seq<string>, Error>,
                          succeeds: seq<string> -> bool, written: Option<string>)
    requires event != "start"
    requires record.Some? ==> succeeds(StopCommand(record.value))
    ensures var s := Callback(record, event, run, succeeds, written);
      s.record == None && s.outcome == Pass &&
      s.actions == if record.Some? then [Command(StopCommand(record.value)), RemoveRecord] else []
  {
  }

  /** On `start`, once the old container is gone: when the arguments build,
      the run is the last action, the record is whatever `docker run` wrote
      and the call raises exactly when the run failed; when they do not
      build, nothing is run and nothing is recorded. */
  lemma StartLaunches(record: Option<string>, run: Result<seq<string>, Error>,
                      succeeds: seq<string> -> bool, written: Option<string>)
    requires record.Some? ==> succeeds(StopCommand(record.value))
    ensures var s := Callback(record, "start", run, succeeds, written);
      (run.Success? ==>
        s.actions[|s.actions| - 1] == Command(run.value) && s.record == written &&
        (s.outcome == Pass <==> succeeds(run.value))) &&
      (run.Failure? ==>
        s.record == None && s.outcome == Fail(run.error) &&
        s.actions == (if record.Some? then [Command(StopCommand(record.value)), RemoveRecord] else []))
  {
  }

  /** A run that failed after Docker wrote the record leaves a container
      behind; the next call of any event stops that container first. */
  lemma StaleRecordStopped(record: Option<string>, run: Result<seq<string>, Error>,
                           succeeds: seq<string> -> bool, id: string, event: string,
                           next: Result<seq<string>, Error>, written: Option<string>)
    requires record.Some? ==> succeeds(StopCommand(record.value))
    requires run.Success? && !succeeds(run.value)
    ensures var s := Callback(record, "start", run, succeeds, Some(id));
      s.outcome.Fail? && s.record == Some(id) &&
      Callback(s.record, event, next, succeeds, written).actions[0] == Command(StopCommand(id))
  {
  }

  /** Stopping twice: the second call finds no record and does nothing. */
  lemma StopIdempotent(record: Option<string>, event: string, run: Result<seq<string>, Error>,
                       succeeds: seq<string> -> bool, written: Option<string>)
    requires event != "start"
    requires Callback(record, event, run, succeeds, written).outcome == Pass
    ensures var s := Callback(record, event, run, succeeds, written);
      Callback(s.record, event, run, succeeds, written) == Step(None, [], Pass)
  {
  }

  /** The host side of `DockerCallback`: the `CONTAINER_ID` record (its
      contents, or None when the file does not exist) and what the callback
      has done so far. */
  class ContainerHost {
    var record: Option<string>
    var issued: seq<Action>

    constructor (record: Option<string>)
      ensures this.record == record && issued == []
    {
      this.record := record;
      issued := [];
    }

    /** `DockerCallback.__call__(manager, service_name, event_name)`, with
        the service's `required_data` as `providers`. */
    method Call(charmDir: string, serviceName: string, event: string, providers: seq<Provider>,
                succeeds: seq<string> -> bool, written: Option<string>) returns (r: Outcome<Error>)
      modifies this
      ensures var s := Callback(old(record), event,
        RunCommand(PathJoin(charmDir, ContainerIdFile), serviceName, providers, charmDir), succeeds, written);
        record == s.record && issued == old(issued) + s.actions && r == s.outcome
    {
      var cidFile := PathJoin(charmDir, ContainerIdFile);
      if record.Some? {
        var stop := ["docker", "stop", record.value];
        issued := issued + [Command(stop)];
        if !succeeds(stop) {
          return Fail(CalledProcessError(stop));
        }
        record := None;
        issued := issued + [RemoveRecord];
      }
      if event == "start" {
        var volumes := GetArgs(providers, VolumeKind, charmDir);
        if volumes.Failure? {
          return Fail(volumes.error);
        }
        var ports := GetArgs(providers, PortKind, charmDir);
        if ports.Failure? {
          return Fail(ports.error);
        }
        var args := GetArgs(providers, ContainerKind, charmDir);
        if args.Failure? {
          return Fail(args.error);
        }
        var run := ["docker", "run", "-d", "-cidfile", cidFile] + volumes.value + ports.value + [serviceName] + args.value;
        issued := issued + [Command(run)];
        record := written;
        if !succeeds(run) {
          return Fail(CalledProcessError(run));
        }
      }
      r := Pass;
    }
  }
}
