/**
 Domain types shared by the daemon and its clients (crates/core/src/types.rs).

 Byte counters and connection counts are unbounded naturals, instants are
 integers counted in clock ticks.
 */
module Types {

  datatype Option<+T> = None | Some(value: T)

  newtype byte = x: int | 0 <= x < 256

  type Bytes = seq<byte>

  type U64 = n: nat | n < 0x1_0000_0000_0000_0000

  /** A file system path. `display` is the text `Path::display` prints; bytes that are not
      valid UTF-8 are replaced in it, so two different paths may print alike. `lost` stands for
      the bytes that were replaced: it is empty for a path that is valid UTF-8. */
  datatype PathBuf = PathBuf(display: string, lost: seq<nat>)

  datatype Protocol = Tcp | Udp | Other

  type Octets4 = s: seq<byte> | |s| == 4 witness [0, 0, 0, 0]

  type Octets16 = s: seq<byte> | |s| == 16 witness seq(16, _ => 0)

  datatype IpAddr = V4(quad: Octets4) | V6(octets: Octets16)

  datatype ProcessInfo = ProcessInfo(pid: nat, name: string, exe: Option<PathBuf>)

  datatype ConnectionInfo = ConnectionInfo(
    key: string,
    protocol: Protocol,
    localAddr: IpAddr,
    localPort: nat,
    remoteAddr: IpAddr,
    remotePort: nat,
    bytesSent: nat,
    bytesRecv: nat,
    pid: Option<nat>,
    processName: Option<string>,
    exe: Option<PathBuf>,
    started: int,
    lastSeen: int)

  datatype AppUsage = AppUsage(
    name: string,
    exe: Option<PathBuf>,
    bytesSent: nat,
    bytesRecv: nat,
    connections: nat,
    blocked: bool)

  datatype NetworkInfo = NetworkInfo(
    interfaces: seq<string>,
    gateway: Option<IpAddr>,
    dnsServers: seq<IpAddr>,
    ssid: Option<string>,
    metered: Option<bool>,
    primaryInterface: Option<string>)

  datatype RuleAction = Allow | Block

  datatype Rule = Rule(
    id: nat,
    name: string,
    exePath: PathBuf,
    action: RuleAction,
    persistent: bool,
    expiresAt: Option<int>,
    profile: string,
    updatedAt: int)

  datatype RuleInput = RuleInput(
    name: string,
    exePath: PathBuf,
    action: RuleAction,
    persistent: bool,
    ttlSecs: Option<U64>)

  datatype Status = Status(
    version: string,
    uptimeSecs: nat,
    paused: bool,
    filteringActive: bool,
    rulesCount: nat,
    trackedConnections: nat,
    trackedProcesses: nat)

  datatype Event =
    | ConnectionOpened(conn: ConnectionInfo)
    | ConnectionUpdated(conn: ConnectionInfo)
    | ConnectionClosed(key: string)
    | ProcessStarted(process: ProcessInfo)
    | ProcessExited(pid: nat)
    | RuleAdded(rule: Rule)
    | RuleRemoved(id: nat)
    | PausedChanged(paused: bool)
    | NetworkChanged(network: NetworkInfo)

  /** Rust's `saturating_sub` on unsigned integers. */
  function SaturatingSub(a: nat, b: nat): nat {
    if a >= b then a - b else 0
  }

  /** Map lookup as an option: `HashMap::get`. */
  function Get<K, V>(m: map<K, V>, k: K): Option<V> {
    if k in m then Some(m[k]) else None
  }
}
