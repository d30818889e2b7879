# RethinkDB charm: a Dafny model

This project models the deterministic core of a Juju charm that runs RethinkDB
in a Docker container. It covers the charm's hooks (`hooks/common.py`,
`hooks/peers.py`) and the parts of charm-helpers those hooks use:

- the Docker launch machinery (`contrib/docker`): the providers that turn
  port mappings, volumes, container arguments and relation data into
  `docker run` tokens, and the callback that stops the recorded container
  and, on `start`, runs a new one;
- `RelationContext` (`core/services/helpers.py`): collecting the complete
  units of a relation, sorted by relation id and then by unit, the
  readiness test, and the template-context merge;
- `hookenv` (`core/hookenv.py`): the persistent config with its
  previous-run snapshot, the `@cached` memo table with `flush`, and the
  `Hooks` registry;
- `host` (`core/host.py`): the `restart_on_change` checksum guard,
  `service_reload`, and the `mounts`, `get_nic_mtu` and `get_nic_hwaddr`
  parsers;
- the peer `--join host:29015` option strings, and the RethinkDB service
  definition that `manage()` builds.

Every external command (`relation-get`, `relation-list`, `docker`,
`service`, `ip`, reading `/proc/mounts`, file hashing) is a parameter of the
model: a map of relation data, a function from command to exit status, a map
from path to digest, or the lines the command printed.

Modules, one per source file, plus three shared ones:

| module | file | source |
|---|---|---|
| `Wrappers` | wrappers.dfy | `Option`, `Result`, `Outcome` and the Python exceptions raised |
| `Seqs` | seqs.dfy | `FlatMap` (a loop of `extend`), `Map`, `IndexOf` (`list.index`), `Count` |
| `Text` | text.dfy | Python 2 `str.split`, `join`, `strip`, `replace`, `format` of integers, `sorted`, `os.path.join`/`basename`/`isabs` |
| `Hookenv` | hookenv.dfy | hooks/charmhelpers/core/hookenv.py |
| `Host` | host.dfy | hooks/charmhelpers/core/host.py |
| `ServiceHelpers` | helpers.dfy | hooks/charmhelpers/core/services/helpers.py |
| `Docker` | docker.dfy | hooks/charmhelpers/contrib/docker/__init__.py |
| `Peers` | peers.dfy | hooks/peers.py |
| `Common` | common.dfy | hooks/common.py |

Code that changes state step by step is modelled as classes and methods:

- `Hookenv.Config`, `Hookenv.Cache` and `Hookenv.Hooks`;
- `Host.Host`, whose files and trace of steps change;
- `ServiceHelpers.RelationContext`, a dict that `get_data` fills;
- `Docker.ContainerHost`, which holds the `CONTAINER_ID` record and what the callback has done: the docker commands issued and the removals of the record.

Each loop is a method proved equal to a specification function defined from the back of its input. The properties the source promises are lemmas about those functions. Python dicts whose iteration order the code does not fix are sequences of pairs, taken in the order given.

## Model

| member | source | states |
|---|---|---|
| Hookenv.PreviousValue | hooks/charmhelpers/core/hookenv.py:229-236 | `previous(key)` is None without a snapshot (an empty snapshot also gives None); otherwise it is the snapshot's value, a missing key reading as None |
| Hookenv.ChangedOnFirstRun | hooks/charmhelpers/core/hookenv.py:225-226 | without a loaded snapshot every key counts as changed |
| Hookenv.ChangedIffDiffers | hooks/charmhelpers/core/hookenv.py:220-236 | with a snapshot, `changed(key)` holds exactly when the previous and current values differ, a missing key reading as None on either side |
| Hookenv.SaveMerge | hooks/charmhelpers/core/hookenv.py:244-247 | the saved map keeps every current value and adds each snapshot key the current map lacks, with its old value; its keys are the union |
| Hookenv.SaveThenLoad | hooks/charmhelpers/core/hookenv.py:238-249 | after `save` and a load of the file it wrote, a key the saving run held is changed exactly when the next run's value differs from the saved one |
| Hookenv.SaveCarriesDroppedKey | hooks/charmhelpers/core/hookenv.py:244-247 | a snapshot key that the saving run dropped survives `save`; the next run compares against its old value |
| Hookenv.Config.constructor | hooks/charmhelpers/core/hookenv.py:197-202 | the path is `<charm_dir>/.juju-persistent-config`; the snapshot is that file's contents when it exists, else None |
| Hookenv.Config.LoadPrevious | hooks/charmhelpers/core/hookenv.py:204-218 | a non-empty given path replaces the stored one; the file at the path becomes the snapshot; a missing file raises IOError and leaves the snapshot alone; current values never change |
| Hookenv.Config.Save | hooks/charmhelpers/core/hookenv.py:238-249 | the current values become the merge with the snapshot, and exactly that map is written at the path; snapshot and path are unchanged |
| Hookenv.Flushed | hooks/charmhelpers/core/hookenv.py:50-58 | keeps exactly the entries whose key string does not contain `key`, with their values |
| Hookenv.Cache.Call | hooks/charmhelpers/core/hookenv.py:38-46 | on a hit the stored value is returned and the function does not run; on a miss the function runs and its outcome is returned; a returned value is stored, while a raised exception leaves the table unchanged so the next call runs the function again; no other entry changes |
| Hookenv.Cache.Flush | hooks/charmhelpers/core/hookenv.py:50-58 | the table afterwards is exactly the flushed table: the entries whose key contains `key` are gone and all others remain |
| Hookenv.FlushIdempotent | hooks/charmhelpers/core/hookenv.py:50-58 | flushing twice with the same key removes nothing more |
| Hookenv.HookNames | hooks/charmhelpers/core/hookenv.py:483-494 | a decorated function is registered under exactly the given names, its own name, and (when the name has an `_`) the name with `_` turned into `-` |
| Hookenv.Hooks.Register | hooks/charmhelpers/core/hookenv.py:471-473 | a registration binds the name to the handler and replaces an earlier one; other names keep theirs |
| Hookenv.Hooks.Execute | hooks/charmhelpers/core/hookenv.py:475-481 | no arguments raise IndexError; the handler registered under the basename of `args[0]` is chosen; an unknown name raises UnregisteredHookError with that name |
| Hookenv.Hooks.Hook | hooks/charmhelpers/core/hookenv.py:483-494 | afterwards every registered name of the decorator maps to the handler and every other name keeps its handler |
| Host.HashChangedCases | hooks/charmhelpers/core/host.py:227-235 | creating or deleting a watched file changes its hash; a file absent before and after never does; a file present both times has changed exactly when its digest differs |
| Host.ChangedServicesMembers | hooks/charmhelpers/core/host.py:259-262 | a service is in `restarts` exactly when some watched path whose hash changed lists it |
| Host.DedupSpec | hooks/charmhelpers/core/host.py:263 | the deduplicated list holds the same services, none twice, in order of first occurrence |
| Host.DedupMembers | hooks/charmhelpers/core/host.py:263 | deduplication keeps exactly the services of its input |
| Host.DedupOrdered | hooks/charmhelpers/core/host.py:263 | deduplication leaves no service twice and orders services by first occurrence |
| Host.Calls | hooks/charmhelpers/core/host.py:265-270 | one `service(action, s)` per service, in list order |
| Host.RestartActionsOrder | hooks/charmhelpers/core/host.py:264-270 | with `stopstart` every service is stopped, in order, before any is started, then all are started in order; otherwise each gets exactly one restart |
| Host.RestartTargets | hooks/charmhelpers/core/host.py:259-263 | the services acted on are exactly those mapped to a path whose hash differs before and after the call |
| Host.Host.Issue | hooks/charmhelpers/core/host.py:265-266 | the trace gains one `service` call per service, in order; files are untouched |
| Host.Host.RestartOnChange | hooks/charmhelpers/core/host.py:254-270 | the wrapped function runs exactly once, after the first hash pass; if it raises, nothing else happens; otherwise exactly the restart actions for the deduplicated services of the changed paths follow |
| Host.Host.StopStart | hooks/charmhelpers/core/host.py:267-270 | the `stop` pass over all services, then the `start` pass |
| Host.Checksums | hooks/charmhelpers/core/host.py:255-257 | every watched path maps to its hash (None for a missing file) before the call |
| Host.Restarts | hooks/charmhelpers/core/host.py:259-262 | the list built is the services of the changed paths, in the order the watches are given |
| Host.ServiceReload | hooks/charmhelpers/core/host.py:39-45 | `reload` is always tried; `restart` follows exactly when the reload failed and `restart_on_failure` is set; the result is the status of the last command |
| Host.Mounts | hooks/charmhelpers/core/host.py:218-224 | one entry per line; a line with at least two fields gives `[mountpoint, device]` |
| Host.MountsOfProcLine | hooks/charmhelpers/core/host.py:218-224 | a line `device mountpoint fstype ...` gives `[[mountpoint, device]]` |
| Host.GetNicMtu | hooks/charmhelpers/core/host.py:320-328 | the loop computes `NicMtu` of the output lines |
| Host.NicMtuFails | hooks/charmhelpers/core/host.py:324-327 | the only error is IndexError, raised exactly when some line ends with its first `mtu` |
| Host.NicMtuNone | hooks/charmhelpers/core/host.py:323-328 | output without an `mtu` word gives `""` |
| Host.NicMtuLastLine | hooks/charmhelpers/core/host.py:324-328 | otherwise the word after `mtu` on the last line that has one is the result |
| Host.NicHwaddrAbsent | hooks/charmhelpers/core/host.py:334-338 | output without `link/ether` gives `""` |
| Host.NicHwaddrPresent | hooks/charmhelpers/core/host.py:335-337 | the word after the first `link/ether` is the address |
| Host.HwaddrOfWords | hooks/charmhelpers/core/host.py:335-337 | when the first `link/ether` is the `k`-th word of the output, the result is word `k + 1`, or IndexError when `link/ether` is the last word |
| ServiceHelpers.IsReadyUnitIff | hooks/charmhelpers/core/services/helpers.py:51-56 | a unit is complete exactly when it holds every required key; with no required keys every unit is |
| ServiceHelpers.CollectUnits | hooks/charmhelpers/core/services/helpers.py:90-93 | collecting the units of one relation fails only on a unit without settings, with `_is_ready(None)`'s AttributeError |
| ServiceHelpers.CollectRelations | hooks/charmhelpers/core/services/helpers.py:89-93 | collecting over the relation ids fails only with that same error |
| ServiceHelpers.RelationContext.GetData | hooks/charmhelpers/core/services/helpers.py:85-93 | no relation ids: nothing changes; otherwise the list under `name` (created if missing) is extended by the complete units, relation ids sorted, then units sorted; other keys keep their lists |
| ServiceHelpers.RelationContext.AppendRelations | hooks/charmhelpers/core/services/helpers.py:89-93 | the outer loop appends the collected units of every relation id in turn |
| ServiceHelpers.RelationContext.AppendCompleteUnits | hooks/charmhelpers/core/services/helpers.py:90-93 | the inner loop appends the complete units of one relation id, in sorted unit order |
| ServiceHelpers.NewRelationContext | hooks/charmhelpers/core/services/helpers.py:27-29 | the constructor's `get_data` either fails or leaves exactly the fresh context's dict |
| ServiceHelpers.CollectUnitsMembers | hooks/charmhelpers/core/services/helpers.py:90-93 | the units collected from one relation are exactly its complete units |
| ServiceHelpers.CollectRelationsMembers | hooks/charmhelpers/core/services/helpers.py:89-93 | the units collected over several relation ids are exactly their complete units |
| ServiceHelpers.CollectedMembers | hooks/charmhelpers/core/services/helpers.py:85-93 | the list under `name` holds exactly the complete units that `relation-list` reports for the relation ids of `name` |
| ServiceHelpers.CollectedAllReady | hooks/charmhelpers/core/services/helpers.py:92-93 | every collected unit passes `_is_ready` |
| ServiceHelpers.ReadyIffCompleteUnit | hooks/charmhelpers/core/services/helpers.py:31-49 | a fresh context is true (`__bool__`, `is_ready`) exactly when some unit that `relation-list` reports for a relation id of `name` holds every required key |
| ServiceHelpers.MissingLikeIncomplete | hooks/charmhelpers/core/services/helpers.py:42-49 | a missing relation and a relation of incomplete units are both not ready |
| ServiceHelpers.MergeAllLaterWins | hooks/charmhelpers/core/services/helpers.py:117-119 | a key is in the merged context exactly when some provider has it; its value is that of the last provider holding it |
| ServiceHelpers.TemplateContext | hooks/charmhelpers/core/services/helpers.py:115-121 | the loop of `update`s computes the left-to-right merge |
| Text.SortSpec | hooks/charmhelpers/core/services/helpers.py:89-90 | `sorted` returns an ordered permutation of its input |
| Text.WordsOfJoin | hooks/charmhelpers/core/host.py:222 | `split()` of words joined by spaces gives the words back |
| Docker.PortArgsShape | hooks/charmhelpers/contrib/docker/__init__.py:99-103 | two tokens per mapping: `-p`, then `src:dst` |
| Docker.PortSpecRoundTrip | hooks/charmhelpers/contrib/docker/__init__.py:102 | a `src:dst` token reads back as the mapping it came from |
| Docker.BuildPortArgs | hooks/charmhelpers/contrib/docker/__init__.py:99-103 | the loop computes the port arguments |
| Docker.NewVolumesContribute | hooks/charmhelpers/contrib/docker/__init__.py:110-136 | a `DockerVolumes` that passes the constructor's assertion always adds at least one `-v` to `docker run` |
| Docker.HostPathIsJoin | hooks/charmhelpers/contrib/docker/__init__.py:132-133 | the `isabs` test agrees with `os.path.join`, which keeps an absolute path; under an absolute charm directory the host path is absolute and ends with the path given |
| Docker.VolumeArgsLength | hooks/charmhelpers/contrib/docker/__init__.py:125-136 | two tokens per anonymous volume, four per named volume, two per mapped volume |
| Docker.AnonymousVolumeArgs | hooks/charmhelpers/contrib/docker/__init__.py:127-128 | anonymous volumes come first, as `-v volume` |
| Docker.NamedVolumeArgs | hooks/charmhelpers/contrib/docker/__init__.py:129-130 | named volumes come next, as `-v volume --name name` |
| Docker.MappedVolumeArgs | hooks/charmhelpers/contrib/docker/__init__.py:131-135 | mapped volumes come last, as `-v host:container`, the host path taken from the charm directory when relative |
| Docker.BuildVolumeArgs | hooks/charmhelpers/contrib/docker/__init__.py:125-136 | the three loops compute the volume arguments |
| Docker.BuildAnonymousArgs | hooks/charmhelpers/contrib/docker/__init__.py:127-128 | the loop over anonymous volumes |
| Docker.BuildNamedArgs | hooks/charmhelpers/contrib/docker/__init__.py:129-130 | the loop over named volumes |
| Docker.BuildMappedArgs | hooks/charmhelpers/contrib/docker/__init__.py:131-135 | the loop over mapped volumes |
| Docker.NewContainerArgs | hooks/charmhelpers/contrib/docker/__init__.py:143-156 | the positional arguments, then `--key value` for each keyword |
| Docker.ContainerArgsShape | hooks/charmhelpers/contrib/docker/__init__.py:154-156 | the positional arguments come first, in order; each keyword then gives `'--' + key` with `_` turned into `-`, then its value |
| Docker.DefaultMap | hooks/charmhelpers/contrib/docker/__init__.py:199-202 | the loop computes the default `map` |
| Docker.DefaultMapShape | hooks/charmhelpers/contrib/docker/__init__.py:199-202 | the default `map` gives `--key` then the value, for every setting in order |
| Docker.RelationArgsDefault | hooks/charmhelpers/contrib/docker/__init__.py:199-208 | with no units a relation adds nothing; with the default `map` it adds every setting of every unit, in order |
| Docker.BuildRelationArgs | hooks/charmhelpers/contrib/docker/__init__.py:204-208 | the loop concatenates `map(unit)` over the held units; the first failing `map` fails it |
| Docker.BuildArgs | hooks/charmhelpers/contrib/docker/__init__.py:82 | `provider.build_args()` for each kind of provider |
| Docker.GetArgs | hooks/charmhelpers/contrib/docker/__init__.py:77-83 | the loop concatenates the arguments of the providers of the requested kind |
| Docker.ArgsOfKindAppend | hooks/charmhelpers/contrib/docker/__init__.py:77-83 | the arguments gathered over two lists of providers are those of the first followed by those of the second |
| Docker.ArgsOfKindSkips | hooks/charmhelpers/contrib/docker/__init__.py:80-82 | providers of other kinds contribute nothing |
| Docker.ArgsOfKindSingle | hooks/charmhelpers/contrib/docker/__init__.py:80-82 | one provider contributes its arguments when it is of the kind (a `DockerRelation` counts as container arguments), else nothing |
| Docker.StopBeforeRun | hooks/charmhelpers/contrib/docker/__init__.py:65-75 | a recorded container is stopped first; after a successful stop the record is removed, before any `docker run`; a failed stop does nothing else and keeps the record |
| Docker.OnlyStartLaunches | hooks/charmhelpers/contrib/docker/__init__.py:64-75 | any event other than `start` ends with no record and no `docker run`: only the stop and the removal |
| Docker.StartLaunches | hooks/charmhelpers/contrib/docker/__init__.py:69-75 | on `start`, when the arguments build, the run is the last action, the record is whatever `docker run` wrote, and the call raises exactly when the run fails; when they do not build, nothing runs and nothing is recorded |
| Docker.StaleRecordStopped | hooks/charmhelpers/contrib/docker/__init__.py:64-75 | a run that fails after Docker wrote the record leaves it in place, and the next call, whatever its event, stops that container first |
| Docker.StopIdempotent | hooks/charmhelpers/contrib/docker/__init__.py:65-68 | a second stop finds no record and does nothing |
| Docker.ContainerHost.Call | hooks/charmhelpers/contrib/docker/__init__.py:63-75 | the record, the actions taken and the outcome are those of the callback, with the run command `docker run -d -cidfile <charm_dir>/CONTAINER_ID`, then the volume, port, image and container arguments |
| Peers.CliPeers | hooks/peers.py:74-80 | the space-join of `--join`, `peer:port` for each peer, in input order |
| Peers.CliPeersEmpty | hooks/test_peers.py:10-13 | no peers give `""` |
| Peers.CliPeersTwoPeers | hooks/test_peers.py:16-20 | `10.0.0.10` and `10.0.0.11` with the default port give `--join 10.0.0.10:29015 --join 10.0.0.11:29015` |
| Peers.JoinTargetDefault | hooks/peers.py:74 | the default port prints as `29015` |
| Peers.JoinCount | hooks/peers.py:78-79 | there are as many `--join` tokens as peers |
| Peers.CliPeersWords | hooks/peers.py:77-80 | when each peer is one word, splitting the option string gives back the tokens |
| Peers.RelationListJoins | hooks/peers.py:59-80 | `cli_peers()` gives one `--join` per unit that `relation-list` reports, and the empty string when `relation-list` fails |
| Peers.GetPeersAsWritten | hooks/peers.py:66-71 | one `relation_ip` result per listed unit, in listed order |
| Peers.GetPeers | hooks/peers.py:66-71 | with `relation_ip` as intended: the address of each listed unit, in order |
| Peers.PeerAddresses | hooks/peers.py:66-71 | the `i`-th address is the one read for the `i`-th unit, and there are as many addresses as units |
| Peers.RelationIpReadsAddress | hooks/peers.py:83-91 | when `relation-get` prints an address and a newline, the intended `relation_ip` is that address |
| Peers.AsWrittenJoinsRecord | hooks/peers.py:90-91 | as written, the option after `--join` is the printed run record, never the address |
| Peers.CliPeersOfRelation | hooks/peers.py:74-80 | `cli_peers()` with no peers given: `--join address:port` for each listed unit's address |
| Common.ClusterPeersMap | hooks/common.py:15-21 | `map` fails exactly when `private-address` is missing, with KeyError |
| Common.ClusterPeersMapReadsAddress | hooks/common.py:15-21 | `map` reads only `private-address`: units that agree on it map alike |
| Common.ClusterPeersMapTokens | hooks/common.py:13-21 | a complete unit maps to exactly `--join` and `<private-address>:29015` |
| Common.ClusterRelationArgs | hooks/common.py:9-21 | over complete units, `build_args` is one `--join address:29015` pair per unit, in order |
| Common.ClusterPeersProvider | hooks/common.py:9-13 | `ClusterPeers()` fails exactly when its `get_data` fails; it is a relation that counts as container arguments |
| Common.ClusterPeersReady | hooks/common.py:12 | every unit `ClusterPeers()` holds carries `private-address`, so its `build_args` cannot fail |
| Common.WebsiteServesConsole | hooks/common.py:28-29 | the `http` relation publishes the address RethinkDB advertises as its private `--canonical-address`, and host port 80, which `docker run` maps to the web console's port 8080 |
| Common.Manage | hooks/common.py:37-63 | the website context's failure comes first, then a missing `storage-path` (KeyError), then the `ClusterPeers()` failure; otherwise the `dockerfile/rethinkdb` service with ports 80, 28015 and 29015 and four providers |
| Common.StorageVolumeArgs | hooks/common.py:50 | the storage volume gives `-v <host path>:/rethinkdb` |
| Common.RequiredVolumeArgs | hooks/common.py:44-59 | of the service's providers only the storage volume adds volume arguments |
| Common.RequiredPortArgs | hooks/common.py:45-49 | only the port mappings add port arguments |
| Common.RequiredContainerArgs | hooks/common.py:51-58 | the container arguments are the `rethinkdb ...` list followed by the peers' `--join` pairs |
| Common.ServiceRunCommand | hooks/common.py:39-62 | the `docker run` of the service: storage volume, ports, image name, container arguments, peer joins |
| Common.RethinkRunCommand | hooks/common.py:37-63 | the `start` command is `docker run -d -cidfile <file> -v <storage>:/rethinkdb`, then the port arguments, then `dockerfile/rethinkdb rethinkdb --bind all --canonical-address <public> --canonical-address <private> --machine-name <host>`, then one `--join <address>:29015` per complete peer |
| Common.RethinkJoinCount | hooks/common.py:51-58 | the run command carries one `--join` per complete peer |
| Common.RethinkPortArgs | hooks/common.py:45-49 | the port mappings give `-p 80:8080 -p 28015:28015 -p 29015:29015` |
| Common.DispatchHook | hooks/common.py:67-71 | a hook run as `<dir>/<name>` installs exactly when the name is `install` |
| Common.PullsImageItRuns | hooks/common.py:32-34 | the image `install` pulls is the image `start` runs |

## Left out

- The hook tools are assumed to succeed: `relation-get` exiting with a status other than 2, and `relation-ids` or `relation-list` failing, raise `CalledProcessError` in the source. `Env` holds only successful answers, so those errors are not modelled. `CollectUnits`, `CollectRelations` and `GetData` fail only with AttributeError within that abstraction.
- Python 2 `unicode` settings are not modelled: strings are character sequences, so the UnicodeEncodeError that `'--{}'.format(key)` or `str(value)` raise on non-ASCII text (the default `map` of `DockerRelation`, `ClusterPeers.map`) is not modelled.
- Every external command is a parameter: `relation-get`, `relation-ids`, `relation-list`, `unit-get`, `socket.gethostname()`, `docker`, `service`, `ip`, `/proc/mounts`, and the charm directory. JSON decoding of their output is not modelled; relation settings arrive already decoded.
- MD5 in `file_hash` is not modelled. A file system maps each existing path to its digest.
- The JSON file format of the saved config is not modelled. The disk maps each path to the map it holds.
- `log`, `open_port`/`close_port`, `relation_set`, `execution_environment`, the `Serializable` proxy, `relations()` and `relation_types` are left out. They are I/O or metadata reading.
- `install_docker`, the apt calls and `peers.main`/argparse are left out. They only run commands.
- `peers.run` is a parameter function from the command to its result record. Its logging and `fatal`/`on_failure` options are left out because `relation_get` and `relation_list` use neither.
- The other functions of `host.py` are left out. They are OS side effects, a foreign `apt_pkg` call (`cmp_pkgrevno`) or randomness (`pwgen`).
- The fetch handlers (`archiveurl.py`, `bzrurl.py`) are left out. They are network and archive wrappers over libraries not shown.
- `ServiceManager`, `ManagerCallback` and `templating.render` (services/base.py) are not part of this model. `Common.Manage` stops at the service definition it hands over. The readiness gate that decides when the callbacks run is also not part of this model.
- Python 2 dict iteration order is unspecified. The `restart_map` of `restart_on_change`, port mappings, named and mapped volumes, keyword arguments and unit settings are sequences in the order given, so the order of restarts follows the order the watches are given.
- Common.RethinkPortArgs: assumes the port dict iterates in the order written (80, 28015, 29015), which Python 2 does not promise.
- Common.RethinkRunCommand: assumes that same port order. Apart from that it fixes the order of the whole command.
- Peers.RecordText: prints the run record with a fixed key order, and copies `stdout` as it is where the dict's repr would escape the newline as `\n`. The proof that the as-written option is not the address depends on neither.
- Docker.BuildMappedArgs: the `host.mkdir` of each host path is not modelled; only the arguments are.
- ServiceHelpers.RelationContext.GetData: on failure it states only the key set and that other keys keep their values. It does not state which units were appended to the list under `name` before the failure.
- ServiceHelpers.RelationContext.AppendRelations: the same failure-path weakening as `GetData`.
- ServiceHelpers.RelationContext.AppendCompleteUnits: the same failure-path weakening as `GetData`.
- Config values (`Hookenv.Value`) have no floating-point case and compare by constructor, so a value saved as `1` and now `True` reads as changed where Python's `True == 1` says it is not.
- Hookenv.Config.Save: `open(self.path, 'w')` raising IOError (an unwritable path) is not modelled; the write always succeeds.
- Hookenv.Hooks.Execute: returns the chosen handler instead of calling it, since a handler's effect is foreign code.
- Hookenv.Cache.Call: the cache key `str((func, args, kwargs))` and the function's outcome (a value or an exception) are parameters.
- Common.Manage: config values are strings. `storage-path` is the only one read.

## Findings

| source | as written | input that shows it | evidently intended | confidence | as-written member | corrected member |
|---|---|---|---|---|---|---|
| hooks/peers.py:90-91 | `relation_ip` returns what `relation_get` returns: the whole record of `run` (exit status, stdout, stderr). `cli_peers()` with no peers given then formats that record after `--join`. | a unit whose `relation-get private-address` prints `10.0.0.10` and a newline: the option becomes `--join {...}:29015`, not `--join 10.0.0.10:29015` | `relation_ip` returns the address printed, stripped of whitespace | high that the record is formatted; not executed | Peers.AsWrittenJoinsRecord | Peers.RelationIpReadsAddress |
