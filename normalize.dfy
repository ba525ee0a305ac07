/**
 * The field normalisers of main.go: each turns one piece of inspected
 * engine metadata into one docker-compose field.
 */
module Normalize {
  import opened Wrappers
  import opened Text
  import opened Records

  /** The engine's default logging driver, which the manifest leaves implicit. */
  const DefaultLogDriver: string := "json-file"

  /** Engine versions whose dot-stripped digits exceed this get the fixed schema. */
  const VersionThreshold: nat := 18060

  /** The compose schema version written for recent engines. */
  const ModernSchema: string := "3.7"

  /* ---------------------------------------------------------------------- */
  /* makeContainerName                                                      */
  /* ---------------------------------------------------------------------- */

  /** The service name: the container name with every '/' removed. */
  function MakeContainerName(cn: string): (r: string)
    ensures '/' !in r
    ensures |r| <= |cn|
  {
    Without(cn, '/')
  }

  /**
   * Removing the slashes keeps every other character, as often as it
   * occurs, and leaves a name without slashes unchanged.
   */
  lemma ContainerNameKeepsCharacters(cn: string, ch: char)
    ensures ch != '/' ==> multiset(MakeContainerName(cn))[ch] == multiset(cn)[ch]
    ensures '/' !in cn ==> MakeContainerName(cn) == cn
  {
    WithoutCounts(cn, '/', ch);
    if '/' !in cn {
      WithoutAbsent(cn, '/');
    }
  }

  /** The surviving characters keep their order: the name splits at any point. */
  lemma ContainerNameConcat(a: string, b: string)
    ensures MakeContainerName(a + b) == MakeContainerName(a) + MakeContainerName(b)
  {
    WithoutAppend(a, b, '/');
  }

  /** The engine reports "/web" for a container the user named "web". */
  lemma ContainerNameExample()
    ensures MakeContainerName("/web") == "web"
    ensures MakeContainerName("/web") == MakeContainerName("web")
  {
    assert "/web" == "/" + "web";
    ContainerNameConcat("/", "web");
    ContainerNameKeepsCharacters("web", 'w');
  }

  /* ---------------------------------------------------------------------- */
  /* makeCommand                                                            */
  /* ---------------------------------------------------------------------- */

  /** The command line: the arguments joined by single spaces, unquoted. */
  function MakeCommand(cmd: seq<string>): (r: string)
    ensures cmd == [] ==> r == ""
    ensures |cmd| == 1 ==> r == cmd[0]
    ensures cmd != [] ==> |r| == SumLengths(cmd) + |cmd| - 1
  {
    Join(cmd, " ")
  }

  /** Arguments without spaces are recovered by splitting the command at spaces. */
  lemma CommandSplitsBack(cmd: seq<string>)
    requires cmd != []
    requires forall i :: 0 <= i < |cmd| ==> ' ' !in cmd[i]
    ensures Split(MakeCommand(cmd), ' ') == cmd
  {
    SplitJoin(cmd, ' ');
  }

  /** Arguments holding spaces are not quoted, so distinct commands can collide. */
  lemma CommandLosesArgumentBoundaries()
    ensures MakeCommand(["echo", "a b"]) == MakeCommand(["echo", "a", "b"]) == "echo a b"
  {
    assert MakeCommand(["echo", "a b"]) == "echo" + " " + "a b";
    assert Join(["a", "b"], " ") == "a" + " " + "b";
    assert ["echo", "a", "b"][1..] == ["a", "b"];
    assert MakeCommand(["echo", "a", "b"]) == "echo" + " " + Join(["a", "b"], " ");
  }

  /* ---------------------------------------------------------------------- */
  /* makeRestartPolicy                                                      */
  /* ---------------------------------------------------------------------- */

  /** The `restart` field: empty for the "no restart" policy, else its name. */
  function MakeRestartPolicy(rp: RestartPolicy): (r: string)
    ensures r == "" <==> IsNone(rp)
    ensures !IsNone(rp) ==> r == rp.name
  {
    if IsNone(rp) then "" else rp.name
  }

  /* ---------------------------------------------------------------------- */
  /* makeLogConfig                                                          */
  /* ---------------------------------------------------------------------- */

  /**
   * The `logging` field: the options always carried over, the driver type
   * dropped when it is the default driver.
   */
  function MakeLogConfig(lg: LogDriver): (r: LogConfig)
    ensures r.config == lg.config
    ensures r.driverType != DefaultLogDriver
    ensures r.driverType == "" <==> lg.driverType == DefaultLogDriver || lg.driverType == ""
    ensures lg.driverType != DefaultLogDriver ==> r.driverType == lg.driverType
  {
    if lg.driverType == DefaultLogDriver then LogConfig("", lg.config)
    else LogConfig(lg.driverType, lg.config)
  }

  /* ---------------------------------------------------------------------- */
  /* makeVersion                                                            */
  /* ---------------------------------------------------------------------- */

  /**
   * The number strconv.Atoi yields for the dot-stripped engine version; on a
   * syntax error Atoi yields 0, which the program goes on to use.
   */
  function VersionNumber(version: string): (n: nat)
    ensures ParseDecimal(Without(version, '.')).None? ==> n == 0
    ensures ParseDecimal(Without(version, '.')).Some? ==> n == ParseDecimal(Without(version, '.')).value
  {
    ParseDecimal(Without(version, '.')).GetOr(0)
  }

  /**
   * The `version` field: the fixed schema when the dot-stripped engine
   * version parses to a number past the threshold, otherwise the engine
   * version itself, including when it does not parse at all.
   */
  function MakeVersion(version: string): (r: string)
    ensures r == ModernSchema || r == version
    ensures (ParseDecimal(Without(version, '.')).Some? &&
             ParseDecimal(Without(version, '.')).value > VersionThreshold) ==> r == ModernSchema
    ensures r != version ==>
            ParseDecimal(Without(version, '.')).Some? &&
            ParseDecimal(Without(version, '.')).value > VersionThreshold
    ensures ParseDecimal(Without(version, '.')).None? ==> r == version
  {
    if VersionNumber(version) > VersionThreshold then ModernSchema else version
  }

  /** Stripping the dots of a three-component version concatenates the components. */
  lemma StripDots(major: string, minor: string, patch: string)
    requires '.' !in major && '.' !in minor && '.' !in patch
    ensures Without(major + (['.'] + (minor + (['.'] + patch))), '.') == major + (minor + patch)
  {
    WithoutKeepsPrefix(major, ['.'] + (minor + (['.'] + patch)), '.');
    WithoutDropsHead(minor + (['.'] + patch), '.');
    WithoutKeepsPrefix(minor, ['.'] + patch, '.');
    WithoutDropsHead(patch, '.');
    WithoutAbsent(patch, '.');
  }

  /** Engine 18.06.0 sits on the threshold: its version is kept. */
  lemma VersionAtThreshold()
    ensures MakeVersion("18.06.0") == "18.06.0"
  {
    assert "18.06.0" == "18" + (['.'] + ("06" + (['.'] + "0")));
    StripDots("18", "06", "0");
    assert "18" + ("06" + "0") == "18060" == Decimal(18060);
    ParseDecimalOfDecimal(18060);
  }

  /** Engine 20.10.5 is past the threshold: the fixed schema is chosen. */
  lemma VersionPastThreshold()
    ensures MakeVersion("20.10.5") == ModernSchema
  {
    assert "20.10.5" == "20" + (['.'] + ("10" + (['.'] + "5")));
    StripDots("20", "10", "5");
    assert "20" + ("10" + "5") == "20105" == Decimal(20105);
    ParseDecimalOfDecimal(20105);
  }

  /** Engine 18.06.1-ce does not parse once its dots are gone: its version is kept. */
  lemma VersionWithSuffix()
    ensures MakeVersion("18.06.1-ce") == "18.06.1-ce"
  {
    assert "18.06.1-ce" == "18" + (['.'] + ("06" + (['.'] + "1-ce")));
    StripDots("18", "06", "1-ce");
    assert "18" + ("06" + "1-ce") == "18061-ce";
    assert !IsDigit("18061-ce"[5]);
  }

  /* ---------------------------------------------------------------------- */
  /* cleanUpAliases and makeNetworks                                        */
  /* ---------------------------------------------------------------------- */

  /** The aliases to keep: all of them except the container's own hostname. */
  method CleanUpAliases(aliases: seq<string>, hostname: string) returns (kept: seq<string>)
    ensures kept == Without(aliases, hostname)
    ensures hostname !in kept
  {
    kept := [];
    for i := 0 to |aliases|
      invariant kept == Without(aliases[..i], hostname)
    {
      assert aliases[..i + 1] == aliases[..i] + [aliases[i]];
      WithoutAppend(aliases[..i], [aliases[i]], hostname);
      if aliases[i] != hostname {
        kept := kept + [aliases[i]];
      }
    }
    assert aliases[..|aliases|] == aliases;
  }

  /** The `networks` field of a service, as a function of the endpoints. */
  function Attachments(endpoints: map<string, EndpointSettings>, hostname: string): (r: map<string, Network>)
    ensures r.Keys == endpoints.Keys
    ensures forall name :: name in r ==> hostname !in r[name].aliases
  {
    map name | name in endpoints :: Network(Without(endpoints[name].aliases, hostname))
  }

  /**
   * One attachment per endpoint network, whatever order the endpoints are
   * visited in, each with the hostname filtered out of its aliases.
   */
  method MakeNetworks(endpoints: map<string, EndpointSettings>, hostname: string)
    returns (networks: map<string, Network>)
    ensures networks == Attachments(endpoints, hostname)
    ensures networks.Keys == endpoints.Keys
  {
    networks := map[];
    var todo := endpoints.Keys;
    while todo != {}
      invariant todo <= endpoints.Keys
      invariant networks.Keys == endpoints.Keys - todo
      invariant forall name :: name in networks ==>
        networks[name] == Network(Without(endpoints[name].aliases, hostname))
      decreases todo
    {
      var name :| name in todo;
      var aliases := CleanUpAliases(endpoints[name].aliases, hostname);
      networks := networks[name := Network(aliases)];
      todo := todo - {name};
    }
  }

  /**
   * The attachments have exactly the endpoint networks as keys; each alias
   * list is the endpoint's with the hostname removed and the rest in order,
   * so the hostname never appears and filtering again changes nothing.
   */
  lemma AttachmentsFilterHostname(endpoints: map<string, EndpointSettings>, hostname: string, name: string)
    ensures Attachments(endpoints, hostname).Keys == endpoints.Keys
    ensures name in endpoints ==>
      var aliases := Attachments(endpoints, hostname)[name].aliases;
      && hostname !in aliases
      && Without(aliases, hostname) == aliases
      && (forall a :: a != hostname ==> multiset(aliases)[a] == multiset(endpoints[name].aliases)[a])
  {
    if name in endpoints {
      var given := endpoints[name].aliases;
      WithoutIdempotent(given, hostname);
      forall a | a != hostname
        ensures multiset(Without(given, hostname))[a] == multiset(given)[a]
      {
        WithoutCounts(given, hostname, a);
      }
    }
  }

  /** A container with aliases "web" and its hostname "myhost" keeps only "web". */
  lemma AttachmentsExample()
    ensures Attachments(map["app-net" := EndpointSettings(["web", "myhost"])], "myhost")
         == map["app-net" := Network(["web"])]
  {
    assert "web" != "myhost";
    WithoutKeepsPrefix(["web"], ["myhost"], "myhost");
    WithoutDropsHead([], "myhost");
    assert ["myhost"] + [] == ["myhost"];
    assert ["web"] + ["myhost"] == ["web", "myhost"];
    var kept := Without(["web", "myhost"], "myhost");
    assert kept == ["web"];
    var endpoints := map["app-net" := EndpointSettings(["web", "myhost"])];
    assert Attachments(endpoints, "myhost").Keys == {"app-net"};
    assert Attachments(endpoints, "myhost")["app-net"] == Network(kept);
  }

  /* ---------------------------------------------------------------------- */
  /* makePorts                                                              */
  /* ---------------------------------------------------------------------- */

  /** One `ports` entry: "HostIP:HostPort:port/proto". */
  function FormatPort(key: PortKey, b: PortBinding): (r: string)
    ensures |r| == |b.hostIP| + |b.hostPort| + |key.port| + |key.proto| + 3
    ensures r[..|b.hostIP|] == b.hostIP && r[|b.hostIP|] == ':'
    ensures r[|r| - |key.proto|..] == key.proto && r[|r| - |key.proto| - 1] == '/'
  {
    b.hostIP + ":" + b.hostPort + ":" + key.port + "/" + key.proto
  }

  /** The entries for one container port, one per host binding, in order. */
  function BindingStrings(key: PortKey, bindings: seq<PortBinding>): (r: seq<string>)
  {
    seq(|bindings|, j requires 0 <= j < |bindings| => FormatPort(key, bindings[j]))
  }

  /** The number of host bindings over all container ports. */
  function TotalBindings(ps: PortMap): nat
  {
    if ps == [] then 0 else TotalBindings(ps[..|ps| - 1]) + |ps[|ps| - 1].1|
  }

  /** The `ports` field, as a function of the port map in iteration order. */
  function PortStrings(ps: PortMap): (r: seq<string>)
    ensures |r| == TotalBindings(ps)
  {
    if ps == [] then []
    else PortStrings(ps[..|ps| - 1]) + BindingStrings(ps[|ps| - 1].0, ps[|ps| - 1].1)
  }

  /** One entry per (container port, host binding) pair; ports without bindings give none. */
  method MakePorts(ps: PortMap) returns (ports: seq<string>)
    ensures ports == PortStrings(ps)
    ensures |ports| == TotalBindings(ps)
  {
    ports := [];
    for i := 0 to |ps|
      invariant ports == PortStrings(ps[..i])
    {
      var key := ps[i].0;
      var bindings := ps[i].1;
      for j := 0 to |bindings|
        invariant ports == PortStrings(ps[..i]) + BindingStrings(key, bindings[..j])
      {
        assert BindingStrings(key, bindings[..j + 1])
            == BindingStrings(key, bindings[..j]) + [FormatPort(key, bindings[j])];
        ports := ports + [FormatPort(key, bindings[j])];
      }
      assert bindings[..|bindings|] == bindings;
      assert ps[..i + 1][..i] == ps[..i];
    }
    assert ps[..|ps|] == ps;
  }

  /**
   * Binding j of the i-th container port gives the entry at position
   * "bindings of the earlier ports + j", formatted from that port and binding.
   */
  lemma {:induction false} PortStringAt(ps: PortMap, i: nat, j: nat)
    requires i < |ps| && j < |ps[i].1|
    ensures TotalBindings(ps[..i]) + j < |PortStrings(ps)|
    ensures PortStrings(ps)[TotalBindings(ps[..i]) + j] == FormatPort(ps[i].0, ps[i].1[j])
  {
    var last := |ps| - 1;
    if i < last {
      var init := ps[..last];
      PortStringAt(init, i, j);
      assert init[..i] == ps[..i];
      assert init[i] == ps[i];
    } else {
      assert ps[..i] == ps[..last];
    }
  }

  /** Every entry is the formatted form of some binding of some container port. */
  lemma {:induction false} PortStringFrom(ps: PortMap, n: nat)
    requires n < |PortStrings(ps)|
    ensures exists i, j :: 0 <= i < |ps| && 0 <= j < |ps[i].1| &&
                           PortStrings(ps)[n] == FormatPort(ps[i].0, ps[i].1[j])
  {
    var last := |ps| - 1;
    var init := ps[..last];
    if n < |PortStrings(init)| {
      PortStringFrom(init, n);
      var i, j :| 0 <= i < |init| && 0 <= j < |init[i].1| &&
                  PortStrings(init)[n] == FormatPort(init[i].0, init[i].1[j]);
      assert ps[i] == init[i];
    } else {
      var j := n - |PortStrings(init)|;
      assert PortStrings(ps)[n] == FormatPort(ps[last].0, ps[last].1[j]);
    }
  }

  /** Port 80/tcp bound to 0.0.0.0:8080 gives the single entry "0.0.0.0:8080:80/tcp". */
  lemma PortsExample()
    ensures PortStrings([(PortKey("80", "tcp"), [PortBinding("0.0.0.0", "8080")])]) == ["0.0.0.0:8080:80/tcp"]
  {
    var key, binding := PortKey("80", "tcp"), PortBinding("0.0.0.0", "8080");
    var ps: PortMap := [(key, [binding])];
    assert ps[..0] == [];
    assert BindingStrings(key, [binding]) == [FormatPort(key, binding)];
    assert FormatPort(key, binding) == "0.0.0.0:8080:80/tcp";
  }

  /**
   * When no field holds a ':' and neither port part holds a '/', an entry
   * splits back into host IP, host port and "port/proto", and the last into
   * port and protocol.
   */
  lemma FormatPortSplitsBack(key: PortKey, b: PortBinding)
    requires ':' !in b.hostIP && ':' !in b.hostPort && ':' !in key.port && ':' !in key.proto
    requires '/' !in key.port && '/' !in key.proto
    ensures Split(FormatPort(key, b), ':') == [b.hostIP, b.hostPort, key.port + "/" + key.proto]
    ensures Split(key.port + "/" + key.proto, '/') == [key.port, key.proto]
  {
    var parts := [b.hostIP, b.hostPort, key.port + "/" + key.proto];
    assert ':' !in key.port + "/" + key.proto;
    assert parts[1..][1..] == [key.port + "/" + key.proto];
    assert Join(parts[1..], ":") == b.hostPort + ":" + (key.port + "/" + key.proto);
    assert Join(parts, ":") == b.hostIP + ":" + Join(parts[1..], ":");
    assert Join(parts, ":") == FormatPort(key, b);
    SplitJoin(parts, ':');
    assert Join([key.port, key.proto], "/") == key.port + "/" + key.proto;
    SplitJoin([key.port, key.proto], '/');
  }

  /* ---------------------------------------------------------------------- */
  /* One service                                                            */
  /* ---------------------------------------------------------------------- */

  /** The ServiceConfig that main.go builds from one inspected container. */
  function MakeService(c: ContainerInfo): (s: ServiceConfig)
    // each field is its normaliser's result or a copy of the inspected field
    ensures s.containerName == MakeContainerName(c.name)
    ensures s.image == c.image && s.workingDir == c.workingDir
    ensures s.volumes == c.binds && s.env == c.env
    ensures s.restart == MakeRestartPolicy(c.restartPolicy)
    ensures s.command == MakeCommand(c.cmd)
    ensures s.ports == PortStrings(c.ports)
    ensures s.networks == Attachments(c.endpoints, c.hostname)
    ensures s.logging == MakeLogConfig(c.logConfig)
    // and what those normalisers guarantee about the service
    ensures '/' !in s.containerName
    ensures s.networks.Keys == c.endpoints.Keys
    ensures forall name :: name in s.networks ==> c.hostname !in s.networks[name].aliases
    ensures |s.ports| == TotalBindings(c.ports)
    ensures s.restart == "" <==> IsNone(c.restartPolicy)
    ensures s.logging.config == c.logConfig.config && s.logging.driverType != DefaultLogDriver
  {
    ServiceConfig(
      containerName := MakeContainerName(c.name),
      image := c.image,
      restart := MakeRestartPolicy(c.restartPolicy),
      workingDir := c.workingDir,
      command := MakeCommand(c.cmd),
      volumes := c.binds,
      ports := PortStrings(c.ports),
      env := c.env,
      networks := Attachments(c.endpoints, c.hostname),
      logging := MakeLogConfig(c.logConfig))
  }
}
