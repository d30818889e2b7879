/** charmhelpers.core.host: the `restart_on_change` guard, which restarts the
    services of watched files whose content hash changed across a call,
    `service_reload` with its fallback to restart, and the parsers of
    `/proc/mounts` and of `ip addr` output. */
module Host {
  import opened Wrappers
  import opened Text
  import opened Seqs

  type Path = string

  /** The files of the host, each existing file with the digest of its
      content (MD5 itself is not modelled). */
  type FileSystem = map<Path, string>

  /** `file_hash(path)`: the digest, or None when the file does not exist. */
  function FileHash(fs: FileSystem, p: Path): Option<string>
  {
    if p in fs then Some(fs[p]) else None
  }

  predicate HashChanged(before: FileSystem, after: FileSystem, p: Path) {
    FileHash(before, p) != FileHash(after, p)
  }

  /** Creating or deleting a watched file changes its hash; a file absent
      before and after never does. */
  lemma HashChangedCases(before: FileSystem, after: FileSystem, p: Path)
    ensures p !in before && p in after ==> HashChanged(before, after, p)
    ensures p in before && p !in after ==> HashChanged(before, after, p)
    ensures p !in before && p !in after ==> !HashChanged(before, after, p)
    ensures p in before && p in after ==> (HashChanged(before, after, p) <==> before[p] != after[p])
  {
  }

  /** One entry of a `restart_map`: a watched path and its services. */
  datatype Watch = Watch(path: Path, services: seq<string>)

  /** The `restarts` list: the services of every changed path, in the order
      of the restart map. */
  function ChangedServices(watches: seq<Watch>, before: FileSystem, after: FileSystem): seq<string>
  {
    if watches == [] then []
    else
      var w := watches[|watches| - 1];
      ChangedServices(watches[..|watches| - 1], before, after)
        + if HashChanged(before, after, w.path) then w.services else []
  }

  lemma {:induction false} ChangedServicesMembers(watches: seq<Watch>, before: FileSystem, after: FileSystem, x: string)
    ensures x in ChangedServices(watches, before, after) <==>
      exists i :: 0 <= i < |watches| && HashChanged(before, after, watches[i].path) && x in watches[i].services
  {
    if watches != [] {
      var p := watches[..|watches| - 1];
      ChangedServicesMembers(p, before, after, x);
      if exists i :: 0 <= i < |p| && HashChanged(before, after, p[i].path) && x in p[i].services {
        var i :| 0 <= i < |p| && HashChanged(before, after, p[i].path) && x in p[i].services;
        assert watches[i] == p[i];
      }
    }
  }

  /** `list(OrderedDict.fromkeys(s))`: `s` without repeats, each element at
      its first occurrence. */
  function Dedup(s: seq<string>): seq<string>
  {
    if s == [] then []
    else
      var d := Dedup(s[..|s| - 1]);
      if s[|s| - 1] in d then d else d + [s[|s| - 1]]
  }

  /** The deduplicated list holds the same services, none twice, in the
      order of their first occurrence. */
  lemma DedupSpec(s: seq<string>)
    ensures forall x :: x in Dedup(s) <==> x in s
    ensures forall i, j :: 0 <= i < j < |Dedup(s)| ==> Dedup(s)[i] != Dedup(s)[j]
    ensures forall i, j :: 0 <= i < j < |Dedup(s)| ==> IndexOf(s, Dedup(s)[i]) < IndexOf(s, Dedup(s)[j])
  {
    DedupMembers(s);
    DedupOrdered(s);
  }

  lemma {:induction false} DedupMembers(s: seq<string>)
    ensures forall x :: x in Dedup(s) <==> x in s
  {
    if s != [] {
      DedupMembers(s[..|s| - 1]);
      assert s == s[..|s| - 1] + [s[|s| - 1]];
    }
  }

  lemma {:induction false} DedupOrdered(s: seq<string>)
    ensures forall i, j :: 0 <= i < j < |Dedup(s)| ==> Dedup(s)[i] != Dedup(s)[j]
    ensures forall i, j :: 0 <= i < j < |Dedup(s)| && Dedup(s)[i] in s && Dedup(s)[j] in s ==>
      IndexOf(s, Dedup(s)[i]) < IndexOf(s, Dedup(s)[j])
  {
    if s != [] {
      var p, x := s[..|s| - 1], s[|s| - 1];
      assert s == p + [x];
      DedupOrdered(p);
      DedupMembers(p);
      var d := Dedup(p);
      forall y | y in p
        ensures IndexOf(s, y) == IndexOf(p, y)
      {
        IndexOfAppend(p, [x], y);
      }
      if x !in d {
        IndexOfAppend(p, [x], x);
        var r := d + [x];
        forall i, j | 0 <= i < j < |r|
          ensures r[i] != r[j] && IndexOf(s, r[i]) < IndexOf(s, r[j])
        {
          assert r[i] == d[i] && d[i] in p;
          if j < |d| {
            assert r[j] == d[j];
          }
        }
      }
    }
  }

  /** A call of the `service` command. */
  datatype ServiceCall = ServiceCall(action: string, service: string)

  /** The observable steps of a guarded call: the wrapped function running,
      and `service` commands. */
  datatype Event = WrappedCall | Service(call: ServiceCall)

  /** One `service(action, s)` for each `s`, in order. */
  function Calls(action: string, services: seq<string>): (r: seq<Event>)
    ensures |r| == |services|
    ensures forall i :: 0 <= i < |services| ==> r[i] == Service(ServiceCall(action, services[i]))
  {
    if services == [] then []
    else Calls(action, services[..|services| - 1]) + [Service(ServiceCall(action, services[|services| - 1]))]
  }

  /** The service commands `restart_on_change` issues for `services`: one
      restart each, or with `stopstart` a stop of every service and then a
      start of every service. */
  function RestartActions(services: seq<string>, stopstart: bool): seq<Event>
  {
    if stopstart then Calls("stop", services) + Calls("start", services) else Calls("restart", services)
  }

  /** In stop/start mode the services are stopped in order, all of them,
      before any is started; otherwise each gets exactly one restart. */
  lemma RestartActionsOrder(services: seq<string>)
    ensures var r := RestartActions(services, true);
      |r| == 2 * |services| &&
      forall i :: 0 <= i < |services| ==>
        r[i] == Service(ServiceCall("stop", services[i])) &&
        r[|services| + i] == Service(ServiceCall("start", services[i]))
    ensures var r := RestartActions(services, false);
      |r| == |services| &&
      forall i :: 0 <= i < |services| ==> r[i] == Service(ServiceCall("restart", services[i]))
  {
  }

  /** The services `restart_on_change` acts on are exactly those mapped to a
      path whose hash differs before and after the call. */
  lemma RestartTargets(watches: seq<Watch>, before: FileSystem, after: FileSystem, x: string)
    ensures x in Dedup(ChangedServices(watches, before, after)) <==>
      exists i :: 0 <= i < |watches| && HashChanged(before, after, watches[i].path) && x in watches[i].services
  {
    DedupSpec(ChangedServices(watches, before, after));
    ChangedServicesMembers(watches, before, after, x);
  }

  /** What the wrapped function leaves behind: the files, and whether it
      raised. */
  datatype Effect = Effect(files: FileSystem, raised: bool)

  /** The host as the guard sees it: its files and the steps it has taken. */
  class Host {
    var files: FileSystem
    var trace: seq<Event>

    constructor (files: FileSystem)
      ensures this.files == files && trace == []
    {
      this.files := files;
      trace := [];
    }

    /** `service(action, s)` for each `s`, in order; the exit statuses are
        not looked at. */
    method Issue(action: string, services: seq<string>)
      modifies this
      ensures files == old(files)
      ensures trace == old(trace) + Calls(action, services)
    {
      var i := 0;
      while i < |services|
        invariant 0 <= i <= |services|
        invariant files == old(files)
        invariant trace == old(trace) + Calls(action, services[..i])
      {
        assert services[..i + 1][..i] == services[..i];
        trace := trace + [Service(ServiceCall(action, services[i]))];
        i := i + 1;
      }
      assert services[..i] == services;
    }

    /** A function wrapped by `@restart_on_change(watches, stopstart)`,
        called once; `effect` is what the function does to the files and
        whether it raised. An exception propagates before the second hash
        pass, so nothing is restarted. */
    method RestartOnChange(watches: seq<Watch>, stopstart: bool, effect: FileSystem -> Effect) returns (raised: bool)
      modifies this
      ensures files == effect(old(files)).files
      ensures raised == effect(old(files)).raised
      ensures raised ==> trace == old(trace) + [WrappedCall]
      ensures !raised ==>
        trace == old(trace) + [WrappedCall] + RestartActions(Dedup(ChangedServices(watches, old(files), files)), stopstart)
    {
      var checksums := Checksums(files, watches);
      var outcome := effect(files);
      files := outcome.files;
      trace := trace + [WrappedCall];
      if outcome.raised {
        return true;
      }
      raised := false;
      var restarts := Restarts(watches, checksums, old(files), files);
      var services := Dedup(restarts);
      ghost var wrapped := trace;
      if !stopstart {
        Issue("restart", services);
      } else {
        StopStart(services);
      }
      assert trace == wrapped + RestartActions(services, stopstart);
    }

    /** The `stopstart` branch: for each action of `['stop', 'start']`, that
        action on every service. */
    method StopStart(services: seq<string>)
      modifies this
      ensures files == old(files)
      ensures trace == old(trace) + RestartActions(services, true)
    {
      var actions := ["stop", "start"];
      var a := 0;
      while a < |actions|
        invariant 0 <= a <= 2
        invariant files == old(files)
        invariant a == 0 ==> trace == old(trace)
        invariant a == 1 ==> trace == old(trace) + Calls("stop", services)
        invariant a == 2 ==> trace == old(trace) + Calls("stop", services) + Calls("start", services)
      {
        Issue(actions[a], services);
        a := a + 1;
      }
    }
  }

  /** The `pre_checksums` of `restart_on_change`: the hash of every watched
      path before the call. */
  method Checksums(fs: FileSystem, watches: seq<Watch>) returns (checksums: map<Path, Option<string>>)
    ensures forall i :: 0 <= i < |watches| ==>
      watches[i].path in checksums && checksums[watches[i].path] == FileHash(fs, watches[i].path)
  {
    checksums := map[];
    var i := 0;
    while i < |watches|
      invariant 0 <= i <= |watches|
      invariant forall j :: 0 <= j < i ==>
        watches[j].path in checksums && checksums[watches[j].path] == FileHash(fs, watches[j].path)
    {
      checksums := checksums[watches[i].path := FileHash(fs, watches[i].path)];
      i := i + 1;
    }
  }

  /** The `restarts` loop of `restart_on_change`: the services of every
      watched path whose hash now differs from its checksum. */
  method Restarts(watches: seq<Watch>, checksums: map<Path, Option<string>>, ghost before: FileSystem, after: FileSystem)
    returns (restarts: seq<string>)
    requires forall i :: 0 <= i < |watches| ==>
      watches[i].path in checksums && checksums[watches[i].path] == FileHash(before, watches[i].path)
    ensures restarts == ChangedServices(watches, before, after)
  {
    restarts := [];
    var i := 0;
    while i < |watches|
      invariant 0 <= i <= |watches|
      invariant restarts == ChangedServices(watches[..i], before, after)
    {
      assert watches[..i + 1][..i] == watches[..i];
      if checksums[watches[i].path] != FileHash(after, watches[i].path) {
        restarts := restarts + watches[i].services;
      }
      i := i + 1;
    }
    assert watches[..i] == watches;
  }

  /** `service_reload(name, restart_on_failure)`: the `service` commands it
      issues and its result, given the exit status `succeeds` each command
      would have. */
  function ServiceReload(name: string, restartOnFailure: bool, succeeds: ServiceCall -> bool): (r: (seq<ServiceCall>, bool))
    ensures 1 <= |r.0| <= 2 && r.0[0] == ServiceCall("reload", name)
    ensures |r.0| == 2 <==> !succeeds(ServiceCall("reload", name)) && restartOnFailure
    ensures |r.0| == 2 ==> r.0[1] == ServiceCall("restart", name)
    ensures r.1 == succeeds(r.0[|r.0| - 1])
  {
    var reload := ServiceCall("reload", name);
    if !succeeds(reload) && restartOnFailure then
      var restart := ServiceCall("restart", name);
      ([reload, restart], succeeds(restart))
    else
      ([reload], succeeds(reload))
  }

  /** One line of `/proc/mounts` as `mounts()` keeps it: `m[1::-1]` of its
      fields, the first two swapped (fewer fields stay as they are). */
  function MountEntry(line: string): seq<string>
  {
    var m := Words(line);
    if |m| >= 2 then [m[1], m[0]] else m
  }

  /** `mounts()` over the lines of `/proc/mounts`: one entry per line,
      `[mountpoint, device]` for every line with at least two fields. */
  function Mounts(lines: seq<string>): (r: seq<seq<string>>)
    ensures |r| == |lines|
    ensures forall i :: 0 <= i < |lines| && |Words(lines[i])| >= 2 ==>
      r[i] == [Words(lines[i])[1], Words(lines[i])[0]]
  {
    seq(|lines|, i requires 0 <= i < |lines| => MountEntry(lines[i]))
  }

  /** A `/proc/mounts` line `device mountpoint fstype ...` (its fields
      `ws`) yields `[mountpoint, device]`. */
  lemma MountsOfProcLine(ws: seq<string>)
    requires |ws| >= 2 && forall i :: 0 <= i < |ws| ==> IsWord(ws[i])
    ensures Mounts([Join(ws, " ")]) == [[ws[1], ws[0]]]
  {
    WordsOfJoin(ws);
    MountsOfWords([Join(ws, " ")], 0, ws);
  }

  lemma MountsOfWords(lines: seq<string>, i: nat, ws: seq<string>)
    requires i < |lines| && Words(lines[i]) == ws && |ws| >= 2
    ensures Mounts(lines)[i] == [ws[1], ws[0]]
  {
  }

  /** The word after the first `key` in `words`: `words[words.index(key) + 1]`,
      which raises IndexError when `key` is the last word. */
  function WordAfter(words: seq<string>, key: string): Result<string, Error>
    requires key in words
  {
    var i := IndexOf(words, key);
    if i + 1 < |words| then Success(words[i + 1]) else Failure(IndexError)
  }

  predicate HasMtu(line: string) {
    "mtu" in Words(line)
  }

  predicate MtuIsLast(line: string) {
    HasMtu(line) && WordAfter(Words(line), "mtu").Failure?
  }

  /** `get_nic_mtu` over the lines of `ip addr show <nic>`: each line with
      an "mtu" word replaces the result by the word after its first "mtu";
      IndexError as soon as a line ends with its first "mtu". */
  function NicMtu(lines: seq<string>): Result<string, Error>
  {
    if lines == [] then Success("")
    else
      match NicMtu(lines[..|lines| - 1])
      case Failure(e) => Failure(e)
      case Success(mtu) =>
        var line := lines[|lines| - 1];
        if HasMtu(line) then WordAfter(Words(line), "mtu") else Success(mtu)
  }

  method GetNicMtu(lines: seq<string>) returns (r: Result<string, Error>)
    ensures r == NicMtu(lines)
  {
    var mtu := "";
    var i := 0;
    while i < |lines|
      invariant 0 <= i <= |lines|
      invariant NicMtu(lines[..i]) == Success(mtu)
    {
      assert lines[..i + 1][..i] == lines[..i];
      var words := Words(lines[i]);
      if "mtu" in words {
        var after := WordAfter(words, "mtu");
        if after.Failure? {
          NicMtuFailureExtends(lines, i + 1);
          return Failure(IndexError);
        }
        mtu := after.value;
      }
      i := i + 1;
    }
    assert lines[..i] == lines;
    r := Success(mtu);
  }

  lemma {:induction false} NicMtuFailureExtends(lines: seq<string>, k: nat)
    requires k <= |lines| && NicMtu(lines[..k]) == Failure(IndexError)
    ensures NicMtu(lines) == Failure(IndexError)
    decreases |lines| - k
  {
    if k < |lines| {
      assert lines[..k + 1][..k] == lines[..k];
      NicMtuFailureExtends(lines, k + 1);
    } else {
      assert lines[..k] == lines;
    }
  }

  /** The only failure is IndexError, and it happens exactly when some line
      ends with its first "mtu". */
  lemma {:induction false} NicMtuFails(lines: seq<string>)
    ensures NicMtu(lines).Failure? <==> exists i :: 0 <= i < |lines| && MtuIsLast(lines[i])
    ensures NicMtu(lines).Failure? ==> NicMtu(lines).error == IndexError
  {
    if lines != [] {
      var p := lines[..|lines| - 1];
      NicMtuFails(p);
      NicMtuStep(lines);
      assert forall i :: 0 <= i < |p| ==> p[i] == lines[i];
    }
  }

  lemma NicMtuStep(lines: seq<string>)
    requires lines != []
    ensures NicMtu(lines).Failure? <==>
      NicMtu(lines[..|lines| - 1]).Failure? || MtuIsLast(lines[|lines| - 1])
    ensures NicMtu(lines).Failure? && NicMtu(lines[..|lines| - 1]).Success? ==> NicMtu(lines).error == IndexError
    ensures NicMtu(lines[..|lines| - 1]).Failure? ==> NicMtu(lines) == NicMtu(lines[..|lines| - 1])
  {
  }

  /** No "mtu" anywhere gives "". */
  lemma {:induction false} NicMtuNone(lines: seq<string>)
    requires forall i :: 0 <= i < |lines| ==> !HasMtu(lines[i])
    ensures NicMtu(lines) == Success("")
  {
    if lines != [] {
      NicMtuNone(lines[..|lines| - 1]);
    }
  }

  /** Otherwise the last line with an "mtu" decides the result. */
  lemma {:induction false} NicMtuLastLine(lines: seq<string>, k: nat)
    requires k < |lines| && HasMtu(lines[k]) && NicMtu(lines).Success?
    requires forall j :: k < j < |lines| ==> !HasMtu(lines[j])
    ensures NicMtu(lines) == WordAfter(Words(lines[k]), "mtu")
  {
    var p := lines[..|lines| - 1];
    if k < |p| {
      assert NicMtu(lines) == NicMtu(p);
      NicMtuLastLine(p, k);
    }
  }

  /** `get_nic_hwaddr` over the output of `ip -o -0 addr show <nic>`. */
  function NicHwaddr(output: string): Result<string, Error>
  {
    var words := Words(output);
    if "link/ether" in words then WordAfter(words, "link/ether") else Success("")
  }

  /** Output without "link/ether" gives "". */
  lemma NicHwaddrAbsent(words: seq<string>)
    requires forall i :: 0 <= i < |words| ==> IsWord(words[i]) && words[i] != "link/ether"
    ensures NicHwaddr(Join(words, " ")) == Success("")
  {
    WordsOfJoin(words);
  }

  /** Output whose first "link/ether" (the `k`-th word) is followed by an
      address gives that address. */
  lemma NicHwaddrPresent(ws: seq<string>, k: nat)
    requires forall i :: 0 <= i < |ws| ==> IsWord(ws[i])
    requires k + 1 < |ws| && ws[k] == "link/ether" && "link/ether" !in ws[..k]
    ensures NicHwaddr(Join(ws, " ")) == Success(ws[k + 1])
  {
    WordsOfJoin(ws);
    HwaddrOfWords(Join(ws, " "), ws, k);
  }

  /** When the first "link/ether" of the output is its `k`-th word, the
      next word is the address; when it is the last word, `words[k + 1]`
      raises IndexError. */
  lemma HwaddrOfWords(output: string, ws: seq<string>, k: nat)
    requires Words(output) == ws
    requires k < |ws| && ws[k] == "link/ether" && "link/ether" !in ws[..k]
    ensures k + 1 < |ws| ==> NicHwaddr(output) == Success(ws[k + 1])
    ensures k + 1 == |ws| ==> NicHwaddr(output) == Failure(IndexError)
  {
    IndexOfUnique(ws, "link/ether", k);
  }
}
