# composter in Dafny

composter reads the live state of a Docker engine and writes it out as a
docker-compose manifest. It lists every container (running or stopped),
every network and every volume, inspects each one, and turns the metadata
into compose fields. This model covers those field normalisers and the loops
in `main` that fill the manifest's three keyed maps. The loops work over
records that have already been inspected.

- `wrappers.dfy` (`Wrappers`): the Option type.
- `text.dfy` (`Text`): the string primitives the normalisers use, each with
  a partner.
  - `Without` removes every occurrence of one element. It models
    `strings.ReplaceAll(s, c, "")` and the alias filter.
  - `Join` models `strings.Join`. `Split` is its inverse.
  - `ParseDecimal` is the part of `strconv.Atoi` that the version check
    exercises. `Decimal` is its inverse.
- `records.dfy` (`Records`): two groups of records.
  - The inspected engine metadata: `ContainerInfo`, `NetworkInfo`,
    `VolumeInfo`, `RestartPolicy`, `LogDriver`, `EndpointSettings`,
    `PortKey`, `PortBinding` and `PortMap`.
  - The compose records: `ServiceConfig`, `NetworkConfig`, `VolumeConfig`,
    `LogConfig` and `Network`.
- `normalize.dfy` (`Normalize`): the normalisers.
  - `makeContainerName`, `makeCommand`, `makeRestartPolicy`, `makeLogConfig`
    and `makeVersion` are expressions in Go, so here they are functions.
  - `cleanUpAliases`, `makeNetworks` and `makePorts` build their result in a
    loop. Here they are methods with loops, each proved equal to a
    specification function (`Without`, `Attachments`, `PortStrings`).
  - `MakeService` is the `ServiceConfig` literal of main.go:129-140.
- `assemble.dfy` (`Assemble`): the manifest itself.
  - The class `ComposeFile` is the Go struct `Serivce`. Its three map fields
    are filled in place by `AddNetworks`, `AddVolumes` and `AddServices`,
    one loop each.
  - Each method's result is stated through `StoreAll`, a function that
    applies the Go statement `m[key(r)] = val(r)` to each resource in turn.
    The lemmas about `StoreAll` say which keys exist afterwards and that the
    last resource with a key wins.

Behaviour reproduced as the code has it:

- A network's `external` flag is copied from the inspected `Internal` flag
  (main.go:106-109). This is probably a defect: an internal-only network is
  not the same thing as an externally managed one. The model keeps the
  behaviour and states it in `Assemble.NetworkStored`.
- When the dot-stripped engine version does not parse, `strconv.Atoi` yields
  0, and the engine version string itself becomes the manifest version
  (main.go:216-224). A failed parse is therefore indistinguishable from a
  version at or below the threshold. The model follows the code.
- Failed inspections are not skipped. After a failed `ContainerInspect` the
  result is the zero value, whose embedded base record and `Config` are nil
  pointers, so reading `cj.Name` at main.go:129 dereferences nil and the
  whole run panics: one bad container aborts the export. After a failed
  `NetworkInspect` the run carries on and stores the network with
  `External` false. The model covers only successful inspections (see
  "Left out").
- `RestartPolicy.IsNone` comes from the Docker API types, which are not part
  of this model. It is written out as `name == "" || name == "no"`, the
  definition in those types. `Records.IsNone` holds this assumption.

## Model

| member | source | states |
|---|---|---|
| `Text.Without` | main.go:169-177 | The result never contains the removed element and is no longer than the input. |
| `Text.WithoutAppend` | main.go:171-175 | Filtering distributes over concatenation, so the kept elements stay in their original order. |
| `Text.WithoutAbsent` | main.go:200-202 | A sequence that does not contain the element comes back unchanged. |
| `Text.WithoutIdempotent` | main.go:169-177 | Filtering a second time changes nothing. |
| `Text.WithoutCounts` | main.go:169-177 | Every other element is kept exactly as often as it occurs. The removed element occurs zero times. |
| `Text.Join` | main.go:204-206 | No parts give "". Otherwise the length is the sum of the part lengths plus one separator between each pair of neighbours. |
| `Text.JoinSplit` | main.go:204-206 | Joining the pieces produced by `Split` gives back the original string. |
| `Text.SplitJoin` | main.go:204-206 | Splitting a join gives back the parts, if there is at least one part and no part contains the separator. |
| `Text.ParseDecimal` | main.go:216 | A string parses exactly when it is non-empty and all digits, and its value is below 10 to the power of its length. |
| `Text.Decimal` | main.go:216 | The numeral of a natural number is non-empty and all digits. |
| `Text.ParseDecimalOfDecimal` | main.go:216 | Parsing the numeral of n gives n. The parse is a left inverse of printing. |
| `Normalize.MakeContainerName` | main.go:200-202 | The service name contains no '/' and is no longer than the container name. |
| `Normalize.ContainerNameKeepsCharacters` | main.go:200-202 | Every character other than '/' is kept as often as it occurs. A name without '/' is returned unchanged. |
| `Normalize.ContainerNameConcat` | main.go:200-202 | Name normalisation distributes over concatenation, so the kept characters stay in order. |
| `Normalize.ContainerNameExample` | main.go:200-202 | "/web" gives "web", the same service name as "web". |
| `Normalize.MakeCommand` | main.go:204-206 | An empty command gives "". One argument gives itself. n arguments give a string of length (sum of argument lengths) + n - 1. |
| `Normalize.CommandSplitsBack` | main.go:204-206 | Arguments without spaces are recovered by splitting the command at spaces. |
| `Normalize.CommandLosesArgumentBoundaries` | main.go:204-206 | Arguments are not quoted: ["echo", "a b"] and ["echo", "a", "b"] give the same command. |
| `Normalize.MakeRestartPolicy` | main.go:208-213 | The result is "" exactly when the policy is none. Otherwise it is the policy name unchanged. |
| `Normalize.MakeLogConfig` | main.go:157-167 | The options are always copied. The type is "" exactly when the input type is "json-file" or "". Any other type passes through unchanged. The result's type is never "json-file". |
| `Normalize.MakeVersion` | main.go:215-225 | The result is "3.7" or the engine version. It is "3.7" when the dot-stripped version parses to a number above 18060, and only then unless the version is itself "3.7". An unparsable version is returned unchanged. |
| `Normalize.VersionNumber` | main.go:216-219 | The number compared with the threshold is the parsed value of the dot-stripped version, or 0 when the parse fails. |
| `Normalize.StripDots` | main.go:216 | Stripping the dots from "major.minor.patch" concatenates the three components. |
| `Normalize.VersionAtThreshold` | main.go:221-224 | "18.06.0" (18060) is kept as the version. |
| `Normalize.VersionPastThreshold` | main.go:221-222 | "20.10.5" (20105) gives "3.7". |
| `Normalize.VersionWithSuffix` | main.go:216-224 | "18.06.1-ce" does not parse once its dots are stripped, so it is kept as the version. |
| `Normalize.CleanUpAliases` | main.go:169-177 | The loop returns the aliases with every entry equal to the hostname removed, and the hostname is not among them. |
| `Normalize.Attachments` | main.go:179-187 | The attachments have exactly the endpoint networks as keys, and no alias list contains the hostname. |
| `Normalize.MakeNetworks` | main.go:179-187 | Whatever order the endpoints are visited in, the result has exactly the endpoint networks as keys, each with its filtered alias list. |
| `Normalize.AttachmentsFilterHostname` | main.go:179-187 | Keys are exactly the endpoint networks. In each alias list the hostname never appears, filtering again changes nothing, and every other alias keeps its count. |
| `Normalize.AttachmentsExample` | main.go:179-187 | Aliases ["web", "myhost"] with hostname "myhost" give ["web"]. |
| `Normalize.FormatPort` | main.go:193 | An entry has the form HostIP:HostPort:port/proto. It starts with the host IP and a ':', ends with a '/' and the protocol, and is as long as the four fields plus three separators. |
| `Normalize.PortStrings` | main.go:189-198 | The number of entries equals the total number of host bindings, so a port without bindings contributes nothing. |
| `Normalize.MakePorts` | main.go:189-198 | The nested loops produce exactly `PortStrings`, with one entry per host binding. |
| `Normalize.PortStringAt` | main.go:191-195 | Binding j of the i-th container port is the entry at position (bindings of earlier ports) + j, in the form HostIP:HostPort:port/proto. |
| `Normalize.PortStringFrom` | main.go:191-195 | Every entry is the formatted form of some binding of some container port. |
| `Normalize.PortsExample` | main.go:193 | Port 80/tcp bound to 0.0.0.0:8080 gives "0.0.0.0:8080:80/tcp". |
| `Normalize.FormatPortSplitsBack` | main.go:193 | When the fields contain no ':' or '/', an entry splits back into host IP, host port, container port and protocol. |
| `Normalize.MakeService` | main.go:129-140 | Each field is its normaliser's result or a copy: name, restart, command, ports, networks and logging come from the normalisers, and image, working_dir, volumes (Binds) and environment are copied. Hence the name has no '/', the network keys are the endpoint networks and no alias list holds the hostname, there is one port entry per host binding, restart is "" exactly for the none policy, and the log options are copied with the type never "json-file". |
| `Assemble.StoreAll` | main.go:100-141 | Storing keeps every earlier key, and the last resource stored is present under its key with its value. |
| `Assemble.StoreAllKeys` | main.go:100-141 | After the loop, a key is present exactly when it was present before or some resource carries it. |
| `Assemble.StoreAllLastWins` | main.go:100-141 | Map assignment overwrites: a key holds the value of the last resource with that key. |
| `Assemble.StoreAllUntouched` | main.go:100-141 | A key that no resource carries keeps its earlier value, or stays absent. |
| `Assemble.NetworkEntry` | main.go:106-109 | A network entry carries the network's own name, and `external` is set exactly when the inspected network is internal. |
| `Assemble.VolumeEntry` | main.go:117-120 | A volume entry copies the driver and the options. |
| `Assemble.NetworkStored` | main.go:100-110 | Every network is stored under its own name, with `external` equal to its inspected Internal flag. |
| `Assemble.VolumeStored` | main.go:116-121 | Every volume is stored under its name, with driver and options copied. |
| `Assemble.ServiceStored` | main.go:123-141 | Every container is stored under its normalised name as the service built from it, unless a later container normalises to the same name. |
| `Assemble.ServiceNameCollision` | main.go:129 | Containers "/web" then "web" leave one service "web": the later container's. |
| `Assemble.ServicesKeyedByName` | main.go:129-130 | Every stored service's container_name equals its key. |
| `Assemble.ComposeFile.constructor` | main.go:84-92 | The version is the selected schema version. The three maps start empty. |
| `Assemble.ComposeFile.AddNetworks` | main.go:100-110 | The network map becomes the old map with each network stored in turn. The other fields are unchanged, and names equal keys. |
| `Assemble.ComposeFile.AddVolumes` | main.go:116-121 | The volume map becomes the old map with each volume stored in turn. The other fields are unchanged. |
| `Assemble.ComposeFile.AddServices` | main.go:123-141 | The service map becomes the old map with each container's service stored in turn under its normalised name. Container names equal keys, and the other fields are unchanged. |
| `Assemble.Assemble` | main.go:84-141 | The manifest holds the selected version and the three maps filled from the inspected networks, volumes and containers. |
| `Assemble.WebServiceExample` | main.go:129-140 | Container "/web" (nginx:latest, restart always, on app-net with aliases web and myhost, hostname myhost, 80/tcp on 0.0.0.0:8080) gives the service "web" with restart "always", networks {app-net: [web]} and ports ["0.0.0.0:8080:80/tcp"]. |

## Left out

- The Docker client calls (`client.NewClient`, `ContainerList`,
  `ContainerInspect`, `NetworkList`, `NetworkInspect`, `VolumeList`,
  `ServerVersion`). They are network I/O through a library outside this
  model. Their results are parameters: sequences of inspected records and
  the engine version string.
- The failure paths around those calls:
  - the panics when the client cannot be built or the containers cannot be
    listed;
  - the nil dereference panic after a failed `ContainerInspect`
    (main.go:124-131), and the `External` false entry stored after a failed
    `NetworkInspect` (main.go:101-109).

  Only successful inspections are modelled.
- `yaml.Marshal`, `ioutil.WriteFile` (which always writes
  "docker-compose.yml", whatever the `-file` flag says), `fmt.Println`,
  `flag` parsing and every `log.Println`. These are rendering, output and
  command-line handling.
- Go map iteration order. The port map is a sequence of key/bindings pairs
  in some iteration order. The endpoint map is a Dafny map that
  `MakeNetworks` visits in an unspecified order. The networks, volumes and
  services maps are Dafny maps, so their key order is not represented.
- Nil versus empty slices: `cleanUpAliases` returns nil when nothing is
  kept, which YAML renders like an empty list. Both are the empty sequence
  here.
- `nat.Port.Port()` and `Proto()`: the port key is given directly as a
  (port, protocol) pair of strings.
- Normalize.MakeVersion: `strconv.Atoi` accepts a leading '+' or '-', and
  it clamps out-of-range values while reporting an error. The model parses
  only non-empty all-digit strings, with unbounded values. Anything else
  parses as 0.
