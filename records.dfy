/**
 * The records the program reads from the Docker engine (after a successful
 * inspection) and the docker-compose records it builds from them.
 */
module Records {

  /* ---------------------------------------------------------------------- */
  /* Inspected engine metadata                                              */
  /* ---------------------------------------------------------------------- */

  /** container.RestartPolicy: the policy name and its retry bound. */
  datatype RestartPolicy = RestartPolicy(name: string, maximumRetryCount: int)

  /**
   * RestartPolicy.IsNone of the Docker API types: the container is not
   * restarted when the name is "no" or left empty.
   */
  predicate IsNone(rp: RestartPolicy) {
    rp.name == "" || rp.name == "no"
  }

  /** container.LogConfig: the logging driver and its options. */
  datatype LogDriver = LogDriver(driverType: string, config: map<string, string>)

  /** The part of network.EndpointSettings the program reads. */
  datatype EndpointSettings = EndpointSettings(aliases: seq<string>)

  /** A nat.Port key, split into its Port() and Proto() parts. */
  datatype PortKey = PortKey(port: string, proto: string)

  /** nat.PortBinding: where a container port is published on the host. */
  datatype PortBinding = PortBinding(hostIP: string, hostPort: string)

  /**
   * A nat.PortMap, as the sequence of key/bindings pairs in the order the
   * map happens to be iterated.
   */
  type PortMap = seq<(PortKey, seq<PortBinding>)>

  /** The fields of a ContainerInspect result that the program reads. */
  datatype ContainerInfo = ContainerInfo(
    name: string,                               // cj.Name
    image: string,                              // cj.Config.Image
    workingDir: string,                         // cj.Config.WorkingDir
    cmd: seq<string>,                           // cj.Config.Cmd
    hostname: string,                           // cj.Config.Hostname
    env: seq<string>,                           // cj.Config.Env
    binds: seq<string>,                         // cj.HostConfig.Binds
    restartPolicy: RestartPolicy,               // cj.HostConfig.RestartPolicy
    logConfig: LogDriver,                       // cj.HostConfig.LogConfig
    endpoints: map<string, EndpointSettings>,   // cj.NetworkSettings.Networks
    ports: PortMap)                             // cj.NetworkSettings.Ports

  /** A listed network together with the Internal flag of its inspection. */
  datatype NetworkInfo = NetworkInfo(name: string, internal: bool)

  /** A listed volume. */
  datatype VolumeInfo = VolumeInfo(name: string, driver: string, options: map<string, string>)

  /* ---------------------------------------------------------------------- */
  /* docker-compose records                                                 */
  /* ---------------------------------------------------------------------- */

  /** LogConfig: `type` (omitted when empty) and `options`. */
  datatype LogConfig = LogConfig(driverType: string, config: map<string, string>)

  /** Network: one service's attachment to one network. */
  datatype Network = Network(aliases: seq<string>)

  /** NetworkConfig: a top-level network entry. */
  datatype NetworkConfig = NetworkConfig(name: string, external: bool)

  /** VolumeConfig: a top-level volume entry. */
  datatype VolumeConfig = VolumeConfig(driver: string, driverOpts: map<string, string>)

  /** ServiceConfig: one service, built from one inspected container. */
  datatype ServiceConfig = ServiceConfig(
    containerName: string,
    image: string,
    restart: string,
    workingDir: string,
    command: string,
    volumes: seq<string>,
    ports: seq<string>,
    env: seq<string>,
    networks: map<string, Network>,
    logging: LogConfig)
}
