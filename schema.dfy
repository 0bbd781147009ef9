/**
  The data the VPS panel server keeps: the rows of its `vps` table, the
  containers the container engine holds, and the replies its routes send.
 */
module Schema {

  /** The result of one call into the container engine or the database:
      it completes, or it throws an error that carries a message. */
  datatype Outcome = Done | Failed(message: string)

  /** The result of a call that hands back a value when it completes. */
  datatype Result<T> = Ok(value: T) | Err(message: string)

  datatype Option<T> = None | Some(value: T)

  /** The `status` column. The server only ever writes these two values. */
  datatype Status = Running | Stopped

  /** The engine's identifier of one container instance (`container_id`). */
  type ContainerId = nat

  /** One row of the `vps` table; the row's `id` is its key in the table map. */
  datatype Vps = Vps(
    name: string,
    owner: string,
    support: string,
    containerId: ContainerId,
    createdAt: string,
    status: Status)

  /** The options the server passes to `createContainer`. */
  datatype ContainerSpec = ContainerSpec(
    image: string,
    name: string,
    tty: bool,
    memory: int,
    cpuPeriod: int,
    cpuQuota: int,
    restartPolicy: string,
    env: seq<string>)

  datatype Container = Container(spec: ContainerSpec, running: bool)

  const Image := "nxh-i7/ubuntu22.04-tmate"
  /** 512 MiB. */
  const MemoryLimit := 512 * 1024 * 1024
  /** Half of one CPU: a quota of 50000 microseconds per 100000. */
  const CpuPeriod := 100000
  const CpuQuota := 50000
  const RestartPolicy := "unless-stopped"

  /** The container every VPS is backed by: the fixed image, limits and
      restart policy, named after the VPS, with its support number in the
      environment. Create and reinstall both build exactly this. */
  function VpsContainer(name: string, support: string): ContainerSpec
  {
    ContainerSpec(Image, name, true, MemoryLimit, CpuPeriod, CpuQuota, RestartPolicy,
                  ["SUPPORT_NUMBER=" + support])
  }

  /** Everything the routes act on: the `vps` table with its AUTOINCREMENT
      counter, and the engine's containers with the next identifier it will
      hand out. */
  datatype State = State(
    vps: map<int, Vps>,
    nextId: int,
    containers: map<ContainerId, Container>,
    nextContainer: ContainerId)

  /** True when some row already has this `name`. */
  predicate NameTaken(vps: map<int, Vps>, name: string)
  {
    exists id :: id in vps && vps[id].name == name
  }

  /** What holds of every state the server can reach: row ids come from the
      AUTOINCREMENT counter, which starts at 1; container identifiers are
      never handed out twice, so every identifier in use or stored in a row
      is below the engine's counter; and the UNIQUE column keeps names
      distinct. Each container backs at most one row, since every row is
      given a container made for it. Nothing says a row's container still
      exists: it need not. */
  ghost predicate Valid(s: State)
  {
    && s.nextId >= 1
    && (forall id :: id in s.vps ==> 1 <= id < s.nextId)
    && (forall c :: c in s.containers ==> c < s.nextContainer)
    && (forall id :: id in s.vps ==> s.vps[id].containerId < s.nextContainer)
    && (forall i, j :: i in s.vps && j in s.vps && s.vps[i].name == s.vps[j].name ==> i == j)
    && (forall i, j :: i in s.vps && j in s.vps && s.vps[i].containerId == s.vps[j].containerId ==> i == j)
  }

  /** The state of a freshly started server: an empty table, no containers. */
  const Initial := State(map[], 1, map[], 0)

  /** What a route sends back. */
  datatype Reply =
    | Rows(rows: map<int, Vps>)          // the JSON array of rows
    | Created(id: ContainerId)            // { message: 'VPS created', id }
    | Message(message: string)            // { message }
    | SshLink(ssh: string)                // { ssh }
    | Error(code: int, error: string)     // an HTTP error status with { error }

  const AdminOnly := Error(403, "Admin only")
  const NotFound := Error(404, "VPS not found")
  const VpsDeleted := Message("VPS deleted")

  /** The message sqlite3 gives when an INSERT repeats a `name`. */
  const UniqueNameViolation := "SQLITE_CONSTRAINT: UNIQUE constraint failed: vps.name"
  /** The message the engine gives for a container id it does not hold. */
  const NoSuchContainer := "(HTTP code 404) no such container"
}
