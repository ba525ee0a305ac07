/**
 * The manifest main.go assembles: the top-level `Serivce` struct whose three
 * maps are filled, one resource at a time, from the inspected networks,
 * volumes and containers.
 */
module Assemble {
  import opened Text
  import opened Records
  import opened Normalize

  /* ---------------------------------------------------------------------- */
  /* Keyed stores, as functions                                             */
  /* ---------------------------------------------------------------------- */

  /**
   * The map after `m[key(r)] = val(r)` has been executed for each resource
   * `r` of `rs` in order.
   */
  function StoreAll<R, V>(m: map<string, V>, rs: seq<R>, key: R -> string, val: R -> V): (r: map<string, V>)
    ensures m.Keys <= r.Keys
    ensures |rs| > 0 ==> key(rs[|rs| - 1]) in r && r[key(rs[|rs| - 1])] == val(rs[|rs| - 1])
  {
    if rs == [] then m
    else StoreAll(m, rs[..|rs| - 1], key, val)[key(rs[|rs| - 1]) := val(rs[|rs| - 1])]
  }

  /** The keys afterwards: the earlier keys and the key of every stored resource. */
  lemma {:induction false} StoreAllKeys<R, V>(m: map<string, V>, rs: seq<R>, key: R -> string, val: R -> V, k: string)
    ensures k in StoreAll(m, rs, key, val) <==> k in m || exists i :: 0 <= i < |rs| && key(rs[i]) == k
  {
    if rs != [] {
      var init := rs[..|rs| - 1];
      StoreAllKeys(m, init, key, val, k);
      if exists i :: 0 <= i < |init| && key(init[i]) == k {
        var i :| 0 <= i < |init| && key(init[i]) == k;
        assert rs[i] == init[i];
      }
      if exists i :: 0 <= i < |rs| && key(rs[i]) == k {
        var i :| 0 <= i < |rs| && key(rs[i]) == k;
        if i < |rs| - 1 {
          assert init[i] == rs[i];
        }
      }
    }
  }

  /**
   * Assignment overwrites: the value under a key is that of the LAST
   * resource with that key.
   */
  lemma {:induction false} StoreAllLastWins<R, V>(m: map<string, V>, rs: seq<R>, key: R -> string, val: R -> V, i: nat)
    requires i < |rs|
    requires forall j :: i < j < |rs| ==> key(rs[j]) != key(rs[i])
    ensures key(rs[i]) in StoreAll(m, rs, key, val)
    ensures StoreAll(m, rs, key, val)[key(rs[i])] == val(rs[i])
  {
    var last := |rs| - 1;
    if i < last {
      var init := rs[..last];
      assert init[i] == rs[i];
      forall j | i < j < |init|
        ensures key(init[j]) != key(init[i])
      {
        assert init[j] == rs[j];
      }
      StoreAllLastWins(m, init, key, val, i);
    }
  }

  /** A key that no resource carries keeps its earlier value, or stays absent. */
  lemma {:induction false} StoreAllUntouched<R, V>(m: map<string, V>, rs: seq<R>, key: R -> string, val: R -> V, k: string)
    requires forall i :: 0 <= i < |rs| ==> key(rs[i]) != k
    ensures k in StoreAll(m, rs, key, val) <==> k in m
    ensures k in m ==> StoreAll(m, rs, key, val)[k] == m[k]
  {
    if rs != [] {
      var init := rs[..|rs| - 1];
      forall i | 0 <= i < |init|
        ensures key(init[i]) != k
      {
        assert init[i] == rs[i];
      }
      StoreAllUntouched(m, init, key, val, k);
    }
  }

  /* ---------------------------------------------------------------------- */
  /* The three stores of main.go                                            */
  /* ---------------------------------------------------------------------- */

  function NetworkKey(n: NetworkInfo): string { n.name }

  /** A network entry; `external` is copied from the inspected Internal flag. */
  function NetworkEntry(n: NetworkInfo): (r: NetworkConfig)
    ensures r.name == NetworkKey(n)
    ensures r.external <==> n.internal
  {
    NetworkConfig(n.name, n.internal)
  }

  function VolumeKey(v: VolumeInfo): string { v.name }

  /** A volume entry: driver and options copied from the listed volume. */
  function VolumeEntry(v: VolumeInfo): (r: VolumeConfig)
    ensures r.driver == v.driver && r.driverOpts == v.options
  {
    VolumeConfig(v.driver, v.options)
  }

  /** A service is stored under its normalised container name. */
  function ServiceKey(c: ContainerInfo): string { MakeContainerName(c.name) }

  /**
   * Every network is stored under its own name, with `external` equal to
   * the Internal flag of the last listed network of that name.
   */
  lemma {:induction false} NetworkStored(m: map<string, NetworkConfig>, ns: seq<NetworkInfo>, i: nat)
    requires i < |ns|
    requires forall j :: i < j < |ns| ==> ns[j].name != ns[i].name
    ensures ns[i].name in StoreAll(m, ns, NetworkKey, NetworkEntry)
    ensures StoreAll(m, ns, NetworkKey, NetworkEntry)[ns[i].name].name == ns[i].name
    ensures StoreAll(m, ns, NetworkKey, NetworkEntry)[ns[i].name].external == ns[i].internal
  {
    StoreAllLastWins(m, ns, NetworkKey, NetworkEntry, i);
  }

  /** Every volume is stored under its name with driver and options copied. */
  lemma {:induction false} VolumeStored(m: map<string, VolumeConfig>, vs: seq<VolumeInfo>, i: nat)
    requires i < |vs|
    requires forall j :: i < j < |vs| ==> vs[j].name != vs[i].name
    ensures vs[i].name in StoreAll(m, vs, VolumeKey, VolumeEntry)
    ensures StoreAll(m, vs, VolumeKey, VolumeEntry)[vs[i].name] == VolumeConfig(vs[i].driver, vs[i].options)
  {
    StoreAllLastWins(m, vs, VolumeKey, VolumeEntry, i);
  }

  /**
   * Every container is stored under its normalised name, as the service
   * built from it, unless a later container normalises to the same name.
   */
  lemma {:induction false} ServiceStored(m: map<string, ServiceConfig>, cs: seq<ContainerInfo>, i: nat)
    requires i < |cs|
    requires forall j :: i < j < |cs| ==> MakeContainerName(cs[j].name) != MakeContainerName(cs[i].name)
    ensures MakeContainerName(cs[i].name) in StoreAll(m, cs, ServiceKey, MakeService)
    ensures StoreAll(m, cs, ServiceKey, MakeService)[MakeContainerName(cs[i].name)] == MakeService(cs[i])
  {
    StoreAllLastWins(m, cs, ServiceKey, MakeService, i);
  }

  /** Containers "/web" and "web" collide: the later one replaces the earlier. */
  lemma ServiceNameCollision(first: ContainerInfo, second: ContainerInfo)
    requires first.name == "/web" && second.name == "web"
    ensures StoreAll(map[], [first, second], ServiceKey, MakeService).Keys == {"web"}
    ensures StoreAll(map[], [first, second], ServiceKey, MakeService)["web"] == MakeService(second)
  {
    ContainerNameExample();
    assert ServiceKey(first) == "web" && ServiceKey(second) == "web";
    assert [first, second][..1] == [first];
    assert [first][..0] == [];
    assert StoreAll(map[], [first], ServiceKey, MakeService) == map["web" := MakeService(first)];
  }

  /** Keys and names agree: a service's container_name is its key, a network's name its key. */
  ghost predicate KeyedByName(networks: map<string, NetworkConfig>, services: map<string, ServiceConfig>)
  {
    && (forall name :: name in networks ==> networks[name].name == name)
    && (forall name :: name in services ==> services[name].containerName == name)
  }

  /** Storing services keeps every service's container_name equal to its key. */
  lemma {:induction false} ServicesKeyedByName(m: map<string, ServiceConfig>, cs: seq<ContainerInfo>)
    requires forall name :: name in m ==> m[name].containerName == name
    ensures forall name :: name in StoreAll(m, cs, ServiceKey, MakeService) ==>
      StoreAll(m, cs, ServiceKey, MakeService)[name].containerName == name
  {
    if cs != [] {
      ServicesKeyedByName(m, cs[..|cs| - 1]);
    }
  }

  /* ---------------------------------------------------------------------- */
  /* The manifest object                                                    */
  /* ---------------------------------------------------------------------- */

  /** The `Serivce` struct of main.go: schema version and three keyed maps. */
  class ComposeFile {
    var version: string
    var networks: map<string, NetworkConfig>
    var services: map<string, ServiceConfig>
    var volumes: map<string, VolumeConfig>

    ghost predicate Valid()
      reads this
    {
      KeyedByName(networks, services)
    }

    /** The version selected from the engine version, and three empty maps. */
    constructor (serverVersion: string)
      ensures Valid()
      ensures version == MakeVersion(serverVersion)
      ensures networks == map[] && services == map[] && volumes == map[]
    {
      version := MakeVersion(serverVersion);
      networks := map[];
      volumes := map[];
      services := map[];
    }

    /** The network loop: each listed network stored under its name. */
    method AddNetworks(ns: seq<NetworkInfo>)
      requires Valid()
      modifies this
      ensures Valid()
      ensures networks == StoreAll(old(networks), ns, NetworkKey, NetworkEntry)
      ensures version == old(version) && services == old(services) && volumes == old(volumes)
    {
      for i := 0 to |ns|
        invariant Valid()
        invariant networks == StoreAll(old(networks), ns[..i], NetworkKey, NetworkEntry)
        invariant version == old(version) && services == old(services) && volumes == old(volumes)
      {
        assert ns[..i + 1][..i] == ns[..i];
        networks := networks[ns[i].name := NetworkConfig(ns[i].name, ns[i].internal)];
      }
      assert ns[..|ns|] == ns;
    }

    /** The volume loop: each listed volume stored under its name. */
    method AddVolumes(vs: seq<VolumeInfo>)
      requires Valid()
      modifies this
      ensures Valid()
      ensures volumes == StoreAll(old(volumes), vs, VolumeKey, VolumeEntry)
      ensures version == old(version) && networks == old(networks) && services == old(services)
    {
      for i := 0 to |vs|
        invariant Valid()
        invariant volumes == StoreAll(old(volumes), vs[..i], VolumeKey, VolumeEntry)
        invariant version == old(version) && networks == old(networks) && services == old(services)
      {
        assert vs[..i + 1][..i] == vs[..i];
        volumes := volumes[vs[i].name := VolumeConfig(vs[i].driver, vs[i].options)];
      }
      assert vs[..|vs|] == vs;
    }

    /** The container loop: each inspected container stored as a service under its normalised name. */
    method AddServices(cs: seq<ContainerInfo>)
      requires Valid()
      modifies this
      ensures Valid()
      ensures services == StoreAll(old(services), cs, ServiceKey, MakeService)
      ensures version == old(version) && networks == old(networks) && volumes == old(volumes)
    {
      for i := 0 to |cs|
        invariant Valid()
        invariant services == StoreAll(old(services), cs[..i], ServiceKey, MakeService)
        invariant version == old(version) && networks == old(networks) && volumes == old(volumes)
      {
        var c := cs[i];
        var attachments := MakeNetworks(c.endpoints, c.hostname);
        var ports := MakePorts(c.ports);
        var service := ServiceConfig(
          containerName := MakeContainerName(c.name),
          image := c.image,
          restart := MakeRestartPolicy(c.restartPolicy),
          workingDir := c.workingDir,
          command := MakeCommand(c.cmd),
          volumes := c.binds,
          ports := ports,
          env := c.env,
          networks := attachments,
          logging := MakeLogConfig(c.logConfig));
        assert service == MakeService(c);
        assert cs[..i + 1][..i] == cs[..i];
        services := services[MakeContainerName(c.name) := service];
      }
      assert cs[..|cs|] == cs;
    }
  }

  /**
   * main.go after the engine queries: a manifest with the selected version
   * and the three maps filled from the inspected networks, volumes and
   * containers, in that order.
   */
  method Assemble(serverVersion: string, ns: seq<NetworkInfo>, vs: seq<VolumeInfo>, cs: seq<ContainerInfo>)
    returns (s: ComposeFile)
    ensures fresh(s) && s.Valid()
    ensures s.version == MakeVersion(serverVersion)
    ensures s.networks == StoreAll(map[], ns, NetworkKey, NetworkEntry)
    ensures s.volumes == StoreAll(map[], vs, VolumeKey, VolumeEntry)
    ensures s.services == StoreAll(map[], cs, ServiceKey, MakeService)
  {
    s := new ComposeFile(serverVersion);
    s.AddNetworks(ns);
    s.AddVolumes(vs);
    s.AddServices(cs);
  }

  /**
   * The end-to-end case of one running container "/web" running nginx with
   * restart policy "always", on network "app-net" with aliases "web" and its
   * hostname "myhost", publishing 80/tcp on 0.0.0.0:8080.
   */
  lemma WebServiceExample(c: ContainerInfo)
    requires c.name == "/web" && c.image == "nginx:latest"
    requires c.restartPolicy.name == "always" && c.hostname == "myhost"
    requires c.endpoints == map["app-net" := EndpointSettings(["web", "myhost"])]
    requires c.ports == [(PortKey("80", "tcp"), [PortBinding("0.0.0.0", "8080")])]
    ensures MakeService(c).containerName == "web"
    ensures MakeService(c).image == "nginx:latest"
    ensures MakeService(c).restart == "always"
    ensures MakeService(c).networks == map["app-net" := Network(["web"])]
    ensures MakeService(c).ports == ["0.0.0.0:8080:80/tcp"]
  {
    ContainerNameExample();
    AttachmentsExample();
    PortsExample();
  }
}
