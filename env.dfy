/**
 * The machine the lifecycle code runs on, with everything it cannot see
 * replaced by recorded answers: the files on disk, the WireGuard tunnel
 * service, the Windows service registry queried by `sc query`, and the
 * `teleport` module's three network calls.
 */
module Env {
  import opened Config

  datatype Option<+T> = None | Some(value: T)

  /** What a call into the `teleport` module gave: a value, or an exception with its text. */
  datatype Reply = Ok(value: string) | Fails(message: string)

  /**
   * The answers of the `teleport` module during one operation:
   * `generate_client_hint()`, `get_device_token(hint, pin)` and `connect_device(token)`.
   */
  datatype Backend = Backend(hint: Reply, token: (string, string) -> Reply, config: string -> Reply)

  /**
   * How one `wireguard.exe` run ended: it exited with a code and its (decoded)
   * standard error, or it could not be started at all (`subprocess.run` raised).
   */
  datatype ProcResult = Exited(code: int, stderr: string) | LaunchFailed(reason: string)

  /** The answers of `/uninstalltunnelservice` and `/installtunnelservice` during one operation. */
  datatype Cli = Cli(uninstall: ProcResult, install: ProcResult)

  /** One `sc query` run: its exit code and standard output, or an exception (timeout, missing `sc`, ...). */
  datatype QueryReply = Answered(code: int, stdout: string) | QueryFailed

  /** Exceptions that escape a function of the lifecycle code. */
  datatype Exc = OSError(reason: string) | NameError(name: string) | IndexError

  /** A Python call either returns a value or raises. */
  datatype Outcome<+T> = Returned(value: T) | Raised(exc: Exc)

  /** The `(success, message)` pair every lifecycle function returns. */
  datatype Answer = Answer(ok: bool, msg: string)

  /** An action with an effect outside the program, in the order it happened. */
  datatype Call =
    | GenerateHint
    | GetDeviceToken(hint: string, pin: string)
    | ConnectDevice(token: string)
    | Write(path: Path, text: string)
    | Remove(path: Path)
    | Uninstall
    | Install(config: Path)

  /**
   * A snapshot of the machine: file contents by path, whether the last
   * successful CLI run left the tunnel service installed, how many status
   * queries have been made, and every external action so far.
   */
  datatype World = World(disk: map<Path, string>, installed: bool, queries: nat, log: seq<Call>) {

    function Logged(c: Call): World {
      this.(log := log + [c])
    }

    function Written(p: Path, text: string): World {
      this.(disk := disk[p := text], log := log + [Write(p, text)])
    }

    function Removed(p: Path): World {
      this.(disk := disk - {p}, log := log + [Remove(p)])
    }

    /** A CLI run that started: an exit code of 0 leaves the service installed (install) or gone (uninstall). */
    function Ran(c: Call, r: ProcResult): World
      requires r.Exited? && (c.Uninstall? || c.Install?)
    {
      this.(installed := if r.code == 0 then c.Install? else installed, log := log + [c])
    }

    function Polled(): World {
      this.(queries := queries + 1)
    }
  }

  /** The world after an operation, and what the operation gave back. */
  datatype Step<+T> = Step(world: World, result: T)

  /** `p` is in both maps with the same content, or in neither. */
  predicate Same(d1: map<Path, string>, d2: map<Path, string>, p: Path) {
    (p in d1 <==> p in d2) && (p in d1 ==> d1[p] == d2[p])
  }

  /**
   * The live machine. `registry(n)` is the answer the `n`-th status query
   * receives; `locked` holds the paths whose removal raises (a permission error).
   */
  class Host {
    var disk: map<Path, string>
    var installed: bool
    var queries: nat
    var log: seq<Call>
    const registry: nat -> QueryReply
    const locked: set<Path>

    function State(): World
      reads this
    {
      World(disk, installed, queries, log)
    }

    constructor (disk0: map<Path, string>, installed0: bool, registry: nat -> QueryReply, locked: set<Path>)
      ensures State() == World(disk0, installed0, 0, [])
      ensures this.registry == registry && this.locked == locked
    {
      disk, installed, queries, log := disk0, installed0, 0, [];
      this.registry, this.locked := registry, locked;
    }

    /** A call into the `teleport` module. */
    method Record(c: Call)
      modifies this
      ensures State() == old(State()).Logged(c)
    {
      log := log + [c];
    }

    /** `open(p, 'w').write(text)`. */
    method WriteFile(p: Path, text: string)
      modifies this
      ensures State() == old(State()).Written(p, text)
    {
      disk := disk[p := text];
      log := log + [Write(p, text)];
    }

    /** `os.remove(p)` on an existing file; `false` when it raises. */
    method RemoveFile(p: Path) returns (removed: bool)
      modifies this
      ensures removed == (p !in locked)
      ensures State() == if removed then old(State()).Removed(p) else old(State())
    {
      removed := p !in locked;
      if removed {
        disk := disk - {p};
        log := log + [Remove(p)];
      }
    }

    /** A `wireguard.exe` run that started and exited with `r`. */
    method RunCli(c: Call, r: ProcResult)
      requires r.Exited? && (c.Uninstall? || c.Install?)
      modifies this
      ensures State() == old(State()).Ran(c, r)
    {
      if r.code == 0 {
        installed := c.Install?;
      }
      log := log + [c];
    }

    /** `sc query WireGuardTunnel$teleport`: the next answer of the registry. */
    method QueryService() returns (reply: QueryReply)
      modifies this
      ensures reply == registry(old(queries))
      ensures State() == old(State()).Polled()
    {
      reply := registry(queries);
      queries := queries + 1;
    }
  }
}
