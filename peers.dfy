/** hooks/peers.py: the `--join host:port` option string that points a
    RethinkDB server at its peers, and the lookup of the peers' addresses
    through the Juju hook tools. */
module Peers {
  import opened Wrappers
  import opened Text
  import opened Seqs

  /** The default port of `cli_peers`: RethinkDB's intracluster port. */
  const DefaultPort: nat := 29015

  /** `'{}:{}'.format(peer, port)` for a peer that is a string. */
  function JoinTarget(peer: string, port: nat): string
  {
    peer + ":" + NatToString(port)
  }

  function JoinTokens(port: nat): string -> seq<string>
  {
    (peer: string) => ["--join", JoinTarget(peer, port)]
  }

  /** `cli_peers(peers, port)`: `--join peer:port` for each peer, in order,
      joined by spaces. */
  method CliPeers(peers: seq<string>, port: nat) returns (s: string)
    ensures s == Join(FlatMap(peers, JoinTokens(port)), " ")
  {
    var result: seq<string> := [];
    var i := 0;
    while i < |peers|
      invariant 0 <= i <= |peers|
      invariant result == FlatMap(peers[..i], JoinTokens(port))
    {
      FlatMapSnoc(peers[..i], peers[i], JoinTokens(port));
      assert peers[..i + 1] == peers[..i] + [peers[i]];
      result := result + ["--join", JoinTarget(peers[i], port)];
      i := i + 1;
    }
    assert peers[..i] == peers;
    s := Join(result, " ");
  }

  /** No peers, no options. */
  lemma CliPeersEmpty(port: nat)
    ensures Join(FlatMap([], JoinTokens(port)), " ") == ""
  {
  }

  /** The two-peer case with the default port. */
  lemma CliPeersTwoPeers()
    ensures Join(FlatMap(["10.0.0.10", "10.0.0.11"], JoinTokens(DefaultPort)), " ")
      == "--join 10.0.0.10:29015 --join 10.0.0.11:29015"
  {
    TwoPeerTokens();
    JoinFour("--join", "10.0.0.10:29015", "--join", "10.0.0.11:29015", " ");
    TwoPeerHalves();
    TwoPeerText();
  }

  // The literal concatenations of the two-peer case, kept apart so that
  // `CliPeersTwoPeers` stays within the solver's budget.

  lemma TwoPeerText()
    ensures "--join 10.0.0.10:29015" + " " + "--join 10.0.0.11:29015"
      == "--join 10.0.0.10:29015 --join 10.0.0.11:29015"
  {
  }

  lemma TwoPeerHalves()
    ensures "--join" + " " + "10.0.0.10:29015" == "--join 10.0.0.10:29015"
    ensures "--join" + " " + "10.0.0.11:29015" == "--join 10.0.0.11:29015"
  {
  }

  lemma JoinFour(a: string, b: string, c: string, d: string, sep: string)
    ensures Join([a, b, c, d], sep) == (a + sep + b) + sep + (c + sep + d)
  {
    var ws := [a, b, c, d];
    assert ws[1..] == [b, c, d] && ws[1..][1..] == [c, d] && ws[1..][1..][1..] == [d];
    assert Join([d], sep) == d;
    assert Join([c, d], sep) == c + sep + d;
    assert Join([b, c, d], sep) == b + sep + (c + sep + d);
  }

  lemma TwoPeerTokens()
    ensures FlatMap(["10.0.0.10", "10.0.0.11"], JoinTokens(DefaultPort))
      == ["--join", "10.0.0.10:29015", "--join", "10.0.0.11:29015"]
  {
    var f := JoinTokens(DefaultPort);
    FlatMapSnoc([], "10.0.0.10", f);
    FlatMapSnoc(["10.0.0.10"], "10.0.0.11", f);
    OneJoinTarget("10.0.0.10");
    OneJoinTarget("10.0.0.11");
    assert ["10.0.0.10", "10.0.0.11"] == ["10.0.0.10"] + ["10.0.0.11"];
    assert "10.0.0.10" + ":29015" == "10.0.0.10:29015";
    assert "10.0.0.11" + ":29015" == "10.0.0.11:29015";
  }

  lemma OneJoinTarget(peer: string)
    ensures JoinTokens(DefaultPort)(peer) == ["--join", peer + ":29015"]
  {
    JoinTargetDefault(peer);
  }

  lemma JoinTargetDefault(peer: string)
    ensures JoinTarget(peer, DefaultPort) == peer + ":29015"
  {
    NatToString29015();
  }

  /** A join target never reads `--join`: it ends with a digit. */
  lemma JoinTargetIsNotFlag(peer: string, port: nat)
    ensures JoinTarget(peer, port) != "--join"
  {
    var t := JoinTarget(peer, port);
    var digits := NatToString(port);
    assert t[|t| - 1] == digits[|digits| - 1];
  }

  /** There is one `--join` per peer. */
  lemma {:induction false} JoinCount(peers: seq<string>, port: nat)
    ensures Count(FlatMap(peers, JoinTokens(port)), "--join") == |peers|
  {
    if peers != [] {
      var p, x := peers[..|peers| - 1], peers[|peers| - 1];
      JoinCount(p, port);
      JoinTargetIsNotFlag(x, port);
      CountAppend(FlatMap(p, JoinTokens(port)), JoinTokens(port)(x), "--join");
      var t := JoinTokens(port)(x);
      assert t == ["--join", JoinTarget(x, port)];
      assert t[..1] == ["--join"] && t[..1][..0] == [];
      assert Count(t[..1], "--join") == 1;
      assert t[1] != "--join";
    }
  }

  lemma JoinTargetIsWord(peer: string, port: nat)
    requires IsWord(peer)
    ensures IsWord(JoinTarget(peer, port))
  {
    var t := JoinTarget(peer, port);
    var digits := NatToString(port);
    forall c | 0 <= c < |t| ensures !IsSpace(t[c]) {
      if c > |peer| {
        assert t[c] == digits[c - |peer| - 1];
      }
    }
  }

  lemma {:induction false} JoinTokensAreWords(peers: seq<string>, port: nat)
    requires forall i :: 0 <= i < |peers| ==> IsWord(peers[i])
    ensures forall k :: 0 <= k < |FlatMap(peers, JoinTokens(port))| ==> IsWord(FlatMap(peers, JoinTokens(port))[k])
  {
    if peers != [] {
      var p, x := peers[..|peers| - 1], peers[|peers| - 1];
      JoinTokensAreWords(p, port);
      JoinTargetIsWord(x, port);
      var t := JoinTokens(port)(x);
      assert t == ["--join", JoinTarget(x, port)];
      var tokens := FlatMap(peers, JoinTokens(port));
      assert tokens == FlatMap(p, JoinTokens(port)) + t;
      forall k | 0 <= k < |tokens| ensures IsWord(tokens[k]) {
        if k >= |FlatMap(p, JoinTokens(port))| {
          assert tokens[k] == t[k - |FlatMap(p, JoinTokens(port))|];
        }
      }
    }
  }

  /** When every peer is a single word the option string splits back into
      `--join`, `peer:port` pairs. */
  lemma CliPeersWords(peers: seq<string>, port: nat)
    requires forall i :: 0 <= i < |peers| ==> IsWord(peers[i])
    ensures Words(Join(FlatMap(peers, JoinTokens(port)), " ")) == FlatMap(peers, JoinTokens(port))
  {
    JoinTokensAreWords(peers, port);
    WordsOfJoin(FlatMap(peers, JoinTokens(port)));
  }

  /** The record `run` returns: exit status and captured output. */
  datatype RunResult = RunResult(returncode: int, stdout: string, stderr: string)

  /** `relation_get(key, unit)`: the command it runs. */
  function RelationGetArgs(key: string, unit: string): seq<string>
  {
    ["relation-get", key] + if unit != "" then [unit] else []
  }

  /** `relation_list()`: the units `relation-list` reports, or no units
      when it fails (`''` iterates as nothing); `listed` is the decoded
      JSON output. */
  function RelationList(status: RunResult, listed: seq<string>): seq<string>
  {
    if status.returncode == 0 then listed else []
  }

  /** With the corrected `relation_ip`, `cli_peers()` gives one `--join`
      per listed unit, and none at all when `relation-list` failed. */
  lemma RelationListJoins(status: RunResult, listed: seq<string>, run: seq<string> -> RunResult, port: nat)
    ensures var units := RelationList(status, listed);
      Count(FlatMap(Map(units, AddressOf(run)), JoinTokens(port)), "--join") ==
        if status.returncode == 0 then |listed| else 0
    ensures status.returncode != 0 ==>
      Join(FlatMap(Map(RelationList(status, listed), AddressOf(run)), JoinTokens(port)), " ") == ""
  {
    var units := RelationList(status, listed);
    JoinCount(Map(units, AddressOf(run)), port);
    MapAt(units, AddressOf(run));
    if status.returncode != 0 {
      CliPeersEmpty(port);
    }
  }

  /** `relation_ip(unit)` as written: the whole record of the
      `relation-get private-address <unit>` run, not the address. */
  function RelationIpAsWritten(unit: string, run: seq<string> -> RunResult): RunResult
  {
    run(RelationGetArgs("private-address", unit))
  }

  /** `'{}'.format(record)`: the record prints as a Python dict. The key
      order of that dict is not fixed by Python 2; this is one order. */
  function RecordText(r: RunResult): (t: string)
    ensures |t| > 0 && t[0] == '{'
  {
    "{'returncode': " + IntText(r.returncode) + ", 'stdout': '" + r.stdout + "', 'stderr': '" + r.stderr + "'}"
  }

  function IntText(n: int): string
  {
    if n < 0 then "-" + NatToString(-n) else NatToString(n)
  }

  /** `relation_ip(unit)` as intended: the address the run printed. */
  function RelationIp(unit: string, run: seq<string> -> RunResult): string
  {
    Strip(run(RelationGetArgs("private-address", unit)).stdout)
  }

  /** The address `relation-get` prints, one word and a newline, is the
      address `relation_ip` gives. */
  lemma RelationIpReadsAddress(unit: string, run: seq<string> -> RunResult, address: string)
    requires IsWord(address)
    requires run(RelationGetArgs("private-address", unit)).stdout == address + "\n"
    ensures RelationIp(unit, run) == address
  {
    StripWord(address, "\n");
  }

  /** `get_peers()` as written: one run record per listed unit. */
  method GetPeersAsWritten(units: seq<string>, run: seq<string> -> RunResult) returns (ips: seq<RunResult>)
    ensures |ips| == |units|
    ensures forall i :: 0 <= i < |units| ==> ips[i] == RelationIpAsWritten(units[i], run)
  {
    ips := [];
    var i := 0;
    while i < |units|
      invariant 0 <= i <= |units| && |ips| == i
      invariant forall k :: 0 <= k < i ==> ips[k] == RelationIpAsWritten(units[k], run)
    {
      ips := ips + [RelationIpAsWritten(units[i], run)];
      i := i + 1;
    }
  }

  function AddressOf(run: seq<string> -> RunResult): string -> string
  {
    (unit: string) => RelationIp(unit, run)
  }

  /** `get_peers()` with `relation_ip` as intended: one address per listed
      unit, in listed order. */
  method GetPeers(units: seq<string>, run: seq<string> -> RunResult) returns (ips: seq<string>)
    ensures ips == Map(units, AddressOf(run))
  {
    ips := [];
    var i := 0;
    while i < |units|
      invariant 0 <= i <= |units|
      invariant ips == Map(units[..i], AddressOf(run))
    {
      assert units[..i + 1][..i] == units[..i];
      ips := ips + [AddressOf(run)(units[i])];
      i := i + 1;
    }
    assert units[..i] == units;
  }

  /** The `i`-th address is the one `relation_ip` reads for the `i`-th unit. */
  lemma PeerAddresses(units: seq<string>, run: seq<string> -> RunResult)
    ensures |Map(units, AddressOf(run))| == |units|
    ensures forall i :: 0 <= i < |units| ==> Map(units, AddressOf(run))[i] == RelationIp(units[i], run)
  {
    MapAt(units, AddressOf(run));
  }

  /** `cli_peers()` with no peers given, as written: each peer is a run
      record, so what follows `--join` is the printed record (which holds
      the whole output of `relation-get`) and the port, never the address
      and the port. */
  lemma AsWrittenJoinsRecord(unit: string, run: seq<string> -> RunResult, address: string)
    requires run(RelationGetArgs("private-address", unit)).stdout == address + "\n"
    ensures var record := RelationIpAsWritten(unit, run);
      Join(FlatMap([RecordText(record)], JoinTokens(DefaultPort)), " ")
        != Join(FlatMap([address], JoinTokens(DefaultPort)), " ")
  {
    var record := RelationIpAsWritten(unit, run);
    var asWritten := Join(FlatMap([RecordText(record)], JoinTokens(DefaultPort)), " ");
    var intended := Join(FlatMap([address], JoinTokens(DefaultPort)), " ");
    FlatMapSnoc([], RecordText(record), JoinTokens(DefaultPort));
    FlatMapSnoc([], address, JoinTokens(DefaultPort));
    assert [RecordText(record)] == [] + [RecordText(record)] && [address] == [] + [address];
    var w := ["--join", JoinTarget(RecordText(record), DefaultPort)];
    var v := ["--join", JoinTarget(address, DefaultPort)];
    assert FlatMap([RecordText(record)], JoinTokens(DefaultPort)) == w;
    assert FlatMap([address], JoinTokens(DefaultPort)) == v;
    assert w[1..] == [w[1]] && v[1..] == [v[1]];
    assert Join(w[1..], " ") == w[1] && Join(v[1..], " ") == v[1];
    assert Join(w, " ") == w[0] + " " + Join(w[1..], " ");
    assert Join(v, " ") == v[0] + " " + Join(v[1..], " ");
    assert asWritten == "--join" + " " + JoinTarget(RecordText(record), DefaultPort);
    assert intended == "--join" + " " + JoinTarget(address, DefaultPort);
    assert |RecordText(record)| > |record.stdout| > |address|;
    assert |asWritten| > |intended|;
  }

  /** `cli_peers()` with no peers given, `relation_ip` as intended: the
      addresses of the listed units, each as `--join address:port`. */
  method CliPeersOfRelation(status: RunResult, listed: seq<string>, run: seq<string> -> RunResult, port: nat)
    returns (s: string)
    ensures s == Join(FlatMap(Map(RelationList(status, listed), AddressOf(run)), JoinTokens(port)), " ")
  {
    var units := RelationList(status, listed);
    var ips := GetPeers(units, run);
    s := CliPeers(ips, port);
  }
}
