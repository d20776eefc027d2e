/**
 * tunnel.py: the four lifecycle functions. Each is given twice: a function
 * `...Step` on a snapshot of the machine, which is the reference the lemmas
 * talk about, and a method that performs the same actions one after another
 * on the live `Host` and is proved to end where the function says.
 *
 * The three artifact paths, module constants in the source, are the `lay`
 * parameter; the live application passes `Config.LiveLayout`.
 */
module Tunnel {
  import opened Text
  import opened Config
  import opened Env

  const NoTokenMessage := "No previous token found. Please enter a new PIN."
  const NoConfigMessage := "No config found. Generate one first."
  const ActivatedMessage := "Tunnel activated!"
  const ActivationFailedPrefix := "Activation failed: "
  const DeactivatedMessage := "Tunnel deactivated!"
  const RequestedMessage := "Tunnel deactivation requested (status may take a moment to update)"
  const NotActiveMessage := "Tunnel not active."
  const DeactivationFailedPrefix := "Deactivation failed: "

  /**
   * How many times the deactivation loop asks for the status. The loop adds
   * the float 0.8 to `elapsed` while `elapsed < 8.0`; after ten additions
   * `elapsed` is 7.999999999999999 in binary floating point, so the test
   * passes an eleventh time.
   */
  const PollChecks := 11

  /** Python truthiness of the `pin` argument: present and not the empty text. */
  predicate Truthy(pin: Option<string>) {
    pin.Some? && pin.value != ""
  }

  /** An `sc query` answer that `is_tunnel_active` reads as a running service. */
  predicate ReportsRunning(r: QueryReply) {
    r.Answered? && r.code == 0 && Contains(Lower(r.stdout), "running")
  }

  /** The `n`-th status query does not see the service running. */
  predicate Idle(reg: nat -> QueryReply, n: nat) {
    !ReportsRunning(reg(n))
  }

  /** The actions an operation added to the log going from `w` to `w2`. */
  function NewCalls(w: World, w2: World): seq<Call>
    requires w.log <= w2.log
  {
    w2.log[|w.log|..]
  }

  /** Going from `w` to `w2` only appended to the log and touched no status query, no service and no file outside `lay`. */
  ghost predicate FilesOnly(w: World, w2: World, lay: Layout) {
    && w.log <= w2.log
    && w2.installed == w.installed
    && w2.queries == w.queries
    && forall p :: !lay.Holds(p) ==> Same(w.disk, w2.disk, p)
  }

  // ---------------------------------------------------------------------
  // generate_config

  /** `connect_device(token)` and, when it returns, writing its text to the config file. */
  function FetchStep(w: World, lay: Layout, token: string, net: Backend): (s: Step<Answer>)
    ensures FilesOnly(w, s.world, lay)
  {
    var w1 := w.Logged(ConnectDevice(token));
    match net.config(token)
    case Fails(m) => Step(w1, Answer(false, m))
    case Ok(c) => Step(w1.Written(lay.config, c), Answer(true, c))
  }

  /** `get_device_token(hint, pin)`, writing the token when it returns, then the fetch. */
  function ExchangeStep(w: World, lay: Layout, hint: string, pin: string, net: Backend): (s: Step<Answer>)
    ensures FilesOnly(w, s.world, lay)
  {
    var w1 := w.Logged(GetDeviceToken(hint, pin));
    match net.token(hint, pin)
    case Fails(m) => Step(w1, Answer(false, m))
    case Ok(t) => FetchStep(w1.Written(lay.token, t), lay, t, net)
  }

  /**
   * `generate_config(pin)`: with a PIN, reuse or create the identity and trade
   * it with the PIN for a token; without one, reuse the stored token; then
   * fetch and store the tunnel config. Any exception becomes `(False, str(e))`.
   */
  function GenerateConfigStep(w: World, lay: Layout, pin: Option<string>, net: Backend): (s: Step<Answer>)
    ensures FilesOnly(w, s.world, lay)
  {
    if Truthy(pin) then
      if lay.uuid in w.disk then
        ExchangeStep(w, lay, Strip(w.disk[lay.uuid]), pin.value, net)
      else
        var w1 := w.Logged(GenerateHint);
        match net.hint
        case Fails(m) => Step(w1, Answer(false, m))
        case Ok(h) => ExchangeStep(w1.Written(lay.uuid, h), lay, h, pin.value, net)
    else if lay.token !in w.disk then
      Step(w, Answer(false, NoTokenMessage))
    else
      FetchStep(w, lay, Strip(w.disk[lay.token]), net)
  }

  /**
   * Every token exchange in `calls` uses the given PIN and the identity: the
   * stripped content of an identity file that already existed, or a hint
   * written to the identity file earlier in the same run.
   */
  predicate IdentityFirst(d: map<Path, string>, calls: seq<Call>, uuid: Path, pin: string) {
    forall i | 0 <= i < |calls| && calls[i].GetDeviceToken? ::
      && calls[i].pin == pin
      && if uuid in d then calls[i].hint == Strip(d[uuid]) else Write(uuid, calls[i].hint) in calls[..i]
  }

  /**
   * The token file is written only with what the `get_device_token` call just
   * before returned, and the config file only with what the `connect_device`
   * call just before returned (for a layout of three distinct paths).
   */
  predicate WritesFollowCalls(calls: seq<Call>, lay: Layout, net: Backend) {
    forall i | 0 <= i < |calls| && calls[i].Write? ::
      && (calls[i].path == lay.token ==>
            0 < i && calls[i - 1].GetDeviceToken? && net.token(calls[i - 1].hint, calls[i - 1].pin) == Ok(calls[i].text))
      && (calls[i].path == lay.config ==>
            0 < i && calls[i - 1].ConnectDevice? && net.config(calls[i - 1].token) == Ok(calls[i].text))
  }

  /** With a PIN, the identity exists before the token exchange and the exchange uses it (tunnel.py:12-20). */
  lemma GenerateIdentityFirst(w: World, lay: Layout, pin: Option<string>, net: Backend)
    requires Truthy(pin)
    ensures IdentityFirst(w.disk, NewCalls(w, GenerateConfigStep(w, lay, pin, net).world), lay.uuid, pin.value)
  {
    GenerateTrace(w, lay, pin, net);
    var calls := GenerateCalls(w.disk, lay, pin, net);
    if lay.uuid in w.disk {
      ExchangeTokenFirst(lay, Strip(w.disk[lay.uuid]), pin.value, net);
    } else if net.hint.Ok? {
      var h := net.hint.value;
      var rest := ExchangeCalls(lay, h, pin.value, net);
      ExchangeTokenFirst(lay, h, pin.value, net);
      assert calls == [GenerateHint, Write(lay.uuid, h)] + rest;
      forall i | 0 <= i < |calls| && calls[i].GetDeviceToken?
        ensures i == 2 && calls[i] == GetDeviceToken(h, pin.value)
      {
        if i >= 2 {
          assert calls[i] == rest[i - 2];
        }
      }
      assert Write(lay.uuid, h) in calls[..2];
    }
  }

  /** An exchange makes one `get_device_token` call, its first action. */
  lemma ExchangeTokenFirst(lay: Layout, hint: string, pin: string, net: Backend)
    ensures var calls := ExchangeCalls(lay, hint, pin, net);
            calls[0] == GetDeviceToken(hint, pin) && forall i :: 1 <= i < |calls| ==> !calls[i].GetDeviceToken?
  {
  }

  /**
   * The actions of a run with a PIN once the identity `hint` is known: the
   * exchange, then the token write and the fetch when it returned, then the
   * config write when the fetch returned.
   */
  function ExchangeCalls(lay: Layout, hint: string, pin: string, net: Backend): seq<Call> {
    [GetDeviceToken(hint, pin)] +
    match net.token(hint, pin)
    case Fails(_) => []
    case Ok(t) => [Write(lay.token, t)] + FetchCalls(lay, t, net)
  }

  /** The actions of a fetch: `connect_device`, then the config write when it returned. */
  function FetchCalls(lay: Layout, token: string, net: Backend): seq<Call> {
    [ConnectDevice(token)] +
    match net.config(token)
    case Fails(_) => []
    case Ok(c) => [Write(lay.config, c)]
  }

  lemma FetchTrace(w: World, lay: Layout, token: string, net: Backend)
    ensures NewCalls(w, FetchStep(w, lay, token, net).world) == FetchCalls(lay, token, net)
    ensures lay.Distinct() ==> WritesFollowCalls(FetchCalls(lay, token, net), lay, net)
  {
  }

  lemma ExchangeTrace(w: World, lay: Layout, hint: string, pin: string, net: Backend)
    ensures NewCalls(w, ExchangeStep(w, lay, hint, pin, net).world) == ExchangeCalls(lay, hint, pin, net)
    ensures lay.Distinct() ==> WritesFollowCalls(ExchangeCalls(lay, hint, pin, net), lay, net)
  {
    var w1 := w.Logged(GetDeviceToken(hint, pin));
    if net.token(hint, pin).Ok? {
      var t := net.token(hint, pin).value;
      var w2 := w1.Written(lay.token, t);
      FetchTrace(w2, lay, t, net);
      var s := FetchStep(w2, lay, t, net);
      assert s.world.log == w.log + [GetDeviceToken(hint, pin), Write(lay.token, t)] + NewCalls(w2, s.world);
      var calls := ExchangeCalls(lay, hint, pin, net);
      if lay.Distinct() {
        forall i | 0 <= i < |calls| && calls[i].Write?
          ensures (calls[i].path == lay.token ==> 0 < i && calls[i - 1].GetDeviceToken? && net.token(calls[i - 1].hint, calls[i - 1].pin) == Ok(calls[i].text))
          ensures (calls[i].path == lay.config ==> 0 < i && calls[i - 1].ConnectDevice? && net.config(calls[i - 1].token) == Ok(calls[i].text))
        {
          if i >= 2 {
            assert calls[i] == FetchCalls(lay, t, net)[i - 2];
          }
        }
      }
    }
  }

  /** The actions of `generate_config` on a disk `d`, in order. */
  function GenerateCalls(d: map<Path, string>, lay: Layout, pin: Option<string>, net: Backend): seq<Call> {
    if Truthy(pin) then
      if lay.uuid in d then ExchangeCalls(lay, Strip(d[lay.uuid]), pin.value, net)
      else
        match net.hint
        case Fails(_) => [GenerateHint]
        case Ok(h) => [GenerateHint, Write(lay.uuid, h)] + ExchangeCalls(lay, h, pin.value, net)
    else if lay.token !in d then []
    else FetchCalls(lay, Strip(d[lay.token]), net)
  }

  lemma GenerateTrace(w: World, lay: Layout, pin: Option<string>, net: Backend)
    ensures NewCalls(w, GenerateConfigStep(w, lay, pin, net).world) == GenerateCalls(w.disk, lay, pin, net)
  {
    if Truthy(pin) {
      if lay.uuid in w.disk {
        ExchangeTrace(w, lay, Strip(w.disk[lay.uuid]), pin.value, net);
      } else if net.hint.Ok? {
        var hint := net.hint.value;
        var w1 := w.Logged(GenerateHint).Written(lay.uuid, hint);
        ExchangeTrace(w1, lay, hint, pin.value, net);
        var e := ExchangeStep(w1, lay, hint, pin.value, net);
        assert e.world.log == w.log + [GenerateHint, Write(lay.uuid, hint)] + NewCalls(w1, e.world);
      }
    } else if lay.token in w.disk {
      FetchTrace(w, lay, Strip(w.disk[lay.token]), net);
    }
  }

  /** `generate_config` only calls the `teleport` module and writes files: it never runs the WireGuard CLI. */
  lemma GenerateRunsNoCli(w: World, lay: Layout, pin: Option<string>, net: Backend)
    ensures forall c :: c in NewCalls(w, GenerateConfigStep(w, lay, pin, net).world) ==> !c.Uninstall? && !c.Install? && !c.Remove?
  {
    GenerateTrace(w, lay, pin, net);
    assert BackendOrWrites(GenerateCalls(w.disk, lay, pin, net)) by {
      if Truthy(pin) {
        if lay.uuid in w.disk {
          ExchangeBackendOrWrites(lay, Strip(w.disk[lay.uuid]), pin.value, net);
        } else if net.hint.Ok? {
          ExchangeBackendOrWrites(lay, net.hint.value, pin.value, net);
        }
      } else if lay.token in w.disk {
        FetchBackendOrWrites(lay, Strip(w.disk[lay.token]), net);
      }
    }
  }

  /** Every action in `calls` is a call into the `teleport` module or a file write. */
  predicate BackendOrWrites(calls: seq<Call>) {
    forall c :: c in calls ==> c.GenerateHint? || c.GetDeviceToken? || c.ConnectDevice? || c.Write?
  }

  lemma FetchBackendOrWrites(lay: Layout, token: string, net: Backend)
    ensures BackendOrWrites(FetchCalls(lay, token, net))
  {
  }

  lemma ExchangeBackendOrWrites(lay: Layout, hint: string, pin: string, net: Backend)
    ensures BackendOrWrites(ExchangeCalls(lay, hint, pin, net))
  {
    if net.token(hint, pin).Ok? {
      FetchBackendOrWrites(lay, net.token(hint, pin).value, net);
    }
  }

  /** The token and config files are written only after the call that produced their content returned (tunnel.py:20-22, 28-30). */
  lemma GenerateWritesFollowCalls(w: World, lay: Layout, pin: Option<string>, net: Backend)
    requires lay.Distinct()
    ensures WritesFollowCalls(NewCalls(w, GenerateConfigStep(w, lay, pin, net).world), lay, net)
  {
    GenerateTrace(w, lay, pin, net);
    var calls := GenerateCalls(w.disk, lay, pin, net);
    if Truthy(pin) {
      if lay.uuid in w.disk {
        ExchangeTrace(w, lay, Strip(w.disk[lay.uuid]), pin.value, net);
      } else if net.hint.Ok? {
        var hint := net.hint.value;
        var w1 := w.Logged(GenerateHint).Written(lay.uuid, hint);
        ExchangeTrace(w1, lay, hint, pin.value, net);
        var rest := ExchangeCalls(lay, hint, pin.value, net);
        forall i | 0 <= i < |calls| && calls[i].Write?
          ensures (calls[i].path == lay.token ==> 0 < i && calls[i - 1].GetDeviceToken? && net.token(calls[i - 1].hint, calls[i - 1].pin) == Ok(calls[i].text))
          ensures (calls[i].path == lay.config ==> 0 < i && calls[i - 1].ConnectDevice? && net.config(calls[i - 1].token) == Ok(calls[i].text))
        {
          if i >= 3 {
            assert calls[i] == rest[i - 2] && calls[i - 1] == rest[i - 3];
          }
        }
      }
    } else if lay.token in w.disk {
      FetchTrace(w, lay, Strip(w.disk[lay.token]), net);
    }
  }

  /** An identity file that exists is never rewritten, and without a PIN neither identity nor token is touched (tunnel.py:12-15, 23-27). */
  lemma GenerateKeepsIdentity(w: World, lay: Layout, pin: Option<string>, net: Backend)
    requires lay.Distinct()
    ensures lay.uuid in w.disk || !Truthy(pin) ==> Same(w.disk, GenerateConfigStep(w, lay, pin, net).world.disk, lay.uuid)
    ensures !Truthy(pin) ==> Same(w.disk, GenerateConfigStep(w, lay, pin, net).world.disk, lay.token)
  {
  }

  /** Without a PIN and without a token file nothing is called and nothing is written (tunnel.py:23-25, 33-34). */
  lemma GenerateNeedsTokenOrPin(w: World, lay: Layout, pin: Option<string>, net: Backend)
    requires !Truthy(pin) && lay.token !in w.disk
    ensures GenerateConfigStep(w, lay, pin, net) == Step(w, Answer(false, NoTokenMessage))
  {
  }

  /**
   * On success the config file holds exactly the text returned, which is what
   * `connect_device` gave for the token used; on failure the config file is
   * as it was (tunnel.py:28-34).
   */
  lemma GenerateConfigResult(w: World, lay: Layout, pin: Option<string>, net: Backend)
    requires lay.Distinct()
    ensures var s := GenerateConfigStep(w, lay, pin, net);
            s.result.ok ==> && lay.config in s.world.disk && s.world.disk[lay.config] == s.result.msg
                            && exists t :: ConnectDevice(t) in NewCalls(w, s.world) && net.config(t) == Ok(s.result.msg)
    ensures var s := GenerateConfigStep(w, lay, pin, net);
            !s.result.ok ==> Same(w.disk, s.world.disk, lay.config)
  {
    var s := GenerateConfigStep(w, lay, pin, net);
    GenerateTrace(w, lay, pin, net);
    if Truthy(pin) {
      if lay.uuid in w.disk || net.hint.Ok? {
        var hint := if lay.uuid in w.disk then Strip(w.disk[lay.uuid]) else net.hint.value;
        var w0 := if lay.uuid in w.disk then w else w.Logged(GenerateHint).Written(lay.uuid, hint);
        assert s == ExchangeStep(w0, lay, hint, pin.value, net);
        if net.token(hint, pin.value).Ok? {
          var t := net.token(hint, pin.value).value;
          var w2 := w0.Logged(GetDeviceToken(hint, pin.value)).Written(lay.token, t);
          assert s == FetchStep(w2, lay, t, net);
          assert ConnectDevice(t) in ExchangeCalls(lay, hint, pin.value, net);
        }
      }
    } else if lay.token in w.disk {
      var t := Strip(w.disk[lay.token]);
      assert ConnectDevice(t) in FetchCalls(lay, t, net);
    }
  }

  /** A failed exchange leaves the token file as it was and reports the exception text (tunnel.py:20-22, 33-34). */
  lemma GenerateExchangeFailure(w: World, lay: Layout, pin: Option<string>, net: Backend, hint: string)
    requires lay.Distinct() && Truthy(pin)
    requires lay.uuid in w.disk || net.hint.Ok?
    requires hint == (if lay.uuid in w.disk then Strip(w.disk[lay.uuid]) else net.hint.value)
    requires net.token(hint, pin.value).Fails?
    ensures var s := GenerateConfigStep(w, lay, pin, net);
            && s.result == Answer(false, net.token(hint, pin.value).message)
            && Same(w.disk, s.world.disk, lay.token)
            && Same(w.disk, s.world.disk, lay.config)
            && forall c :: c in NewCalls(w, s.world) ==> !c.ConnectDevice?
  {
  }

  /** `generate_config` on the live host. */
  method GenerateConfig(h: Host, lay: Layout, pin: Option<string>, net: Backend) returns (r: Answer)
    modifies h
    ensures Step(h.State(), r) == GenerateConfigStep(old(h.State()), lay, pin, net)
  {
    var token: string;
    if Truthy(pin) {
      var hint: string;
      if lay.uuid in h.disk {
        hint := Strip(h.disk[lay.uuid]);
      } else {
        h.Record(GenerateHint);
        if net.hint.Fails? {
          return Answer(false, net.hint.message);
        }
        hint := net.hint.value;
        h.WriteFile(lay.uuid, hint);
      }
      h.Record(GetDeviceToken(hint, pin.value));
      var reply := net.token(hint, pin.value);
      if reply.Fails? {
        return Answer(false, reply.message);
      }
      token := reply.value;
      h.WriteFile(lay.token, token);
    } else {
      if lay.token !in h.disk {
        return Answer(false, NoTokenMessage);
      }
      token := Strip(h.disk[lay.token]);
    }
    h.Record(ConnectDevice(token));
    var config := net.config(token);
    if config.Fails? {
      return Answer(false, config.message);
    }
    h.WriteFile(lay.config, config.value);
    return Answer(true, config.value);
  }

  // ---------------------------------------------------------------------
  // activate_tunnel

  /**
   * `activate_tunnel()`: refuse without a config file; otherwise uninstall
   * (whatever it answers) and install. Only `CalledProcessError` is caught, so
   * a CLI that cannot be started raises.
   */
  function ActivateStep(w: World, lay: Layout, cli: Cli): (s: Step<Outcome<Answer>>)
    ensures s.world.disk == w.disk && s.world.queries == w.queries && w.log <= s.world.log
  {
    if lay.config !in w.disk then
      Step(w, Returned(Answer(false, NoConfigMessage)))
    else
      match cli.uninstall
      case LaunchFailed(why) => Step(w, Raised(OSError(why)))
      case Exited(_, _) =>
        var w1 := w.Ran(Uninstall, cli.uninstall);
        match cli.install
        case LaunchFailed(why) => Step(w1, Raised(OSError(why)))
        case Exited(code, err) =>
          var w2 := w1.Ran(Install(lay.config), cli.install);
          if code == 0 then Step(w2, Returned(Answer(true, ActivatedMessage)))
          else Step(w2, Returned(Answer(false, ActivationFailedPrefix + err)))
  }

  /** Without a config file nothing is run (tunnel.py:38-39). */
  lemma ActivateNeedsConfig(w: World, lay: Layout, cli: Cli)
    requires lay.config !in w.disk
    ensures ActivateStep(w, lay, cli) == Step(w, Returned(Answer(false, NoConfigMessage)))
  {
  }

  /**
   * With a config file, the uninstall's exit code and text do not matter; the
   * install decides: exit 0 gives success with the service installed, any
   * other code the failure text with the tool's diagnostics (tunnel.py:40-45).
   */
  lemma ActivateOutcome(w: World, lay: Layout, cli: Cli, code: int, err: string)
    requires lay.config in w.disk && cli.uninstall.Exited?
    ensures var s := ActivateStep(w, lay, cli);
            && NewCalls(w, s.world) == (if cli.install.Exited? then [Uninstall, Install(lay.config)] else [Uninstall])
            && s.result == ActivateStep(w, lay, Cli(Exited(code, err), cli.install)).result
            && (s.result == Returned(Answer(true, ActivatedMessage)) <==> cli.install.Exited? && cli.install.code == 0)
            && (s.result == Returned(Answer(true, ActivatedMessage)) ==> s.world.installed)
            && (cli.install.Exited? && cli.install.code != 0 ==>
                  s.result == Returned(Answer(false, ActivationFailedPrefix + cli.install.stderr)))
  {
    var s := ActivateStep(w, lay, cli);
    if cli.install.Exited? {
      assert NewCalls(w, s.world) == [Uninstall, Install(lay.config)];
    } else {
      assert NewCalls(w, s.world) == [Uninstall];
    }
  }

  /** Running `activate_tunnel` twice with an install that succeeds leaves the service installed with the same answer: activation can be repeated. */
  lemma ActivateTwice(w: World, lay: Layout, cli: Cli)
    requires lay.config in w.disk && cli.uninstall.Exited? && cli.install.Exited? && cli.install.code == 0
    ensures var s1 := ActivateStep(w, lay, cli);
            var s2 := ActivateStep(s1.world, lay, Cli(Exited(1, "not found"), cli.install));
            s2.result == s1.result == Returned(Answer(true, ActivatedMessage)) && s2.world.installed
  {
  }

  /** `activate_tunnel` on the live host. */
  method ActivateTunnel(h: Host, lay: Layout, cli: Cli) returns (r: Outcome<Answer>)
    modifies h
    ensures Step(h.State(), r) == ActivateStep(old(h.State()), lay, cli)
  {
    if lay.config !in h.disk {
      return Returned(Answer(false, NoConfigMessage));
    }
    if cli.uninstall.LaunchFailed? {
      return Raised(OSError(cli.uninstall.reason));
    }
    h.RunCli(Uninstall, cli.uninstall);
    if cli.install.LaunchFailed? {
      return Raised(OSError(cli.install.reason));
    }
    h.RunCli(Install(lay.config), cli.install);
    if cli.install.code != 0 {
      return Returned(Answer(false, ActivationFailedPrefix + cli.install.stderr));
    }
    return Returned(Answer(true, ActivatedMessage));
  }

  // ---------------------------------------------------------------------
  // is_tunnel_active

  /** `is_tunnel_active(retries)`: no query when `retries <= 0`, otherwise the first answer decides. */
  function StatusStep(w: World, reg: nat -> QueryReply, retries: int): (s: Step<bool>)
    ensures s.world.disk == w.disk && s.world.log == w.log && s.world.installed == w.installed
  {
    if retries <= 0 then Step(w, false) else Step(w.Polled(), ReportsRunning(reg(w.queries)))
  }

  /**
   * For any reply: the status is active exactly when a query was made and it
   * answered with exit code 0 and "running" in its lower-cased output; a query
   * that could not be run or a non-zero exit code reads as inactive, and
   * exactly one query is made when `retries` is positive, none otherwise
   * (tunnel.py:67-97).
   */
  lemma StatusAnswer(w: World, reg: nat -> QueryReply, retries: int)
    ensures var s := StatusStep(w, reg, retries);
            var r := reg(w.queries);
            && (s.result <==> retries > 0 && r.Answered? && r.code == 0 && Contains(Lower(r.stdout), "running"))
            && (r.QueryFailed? || r.code != 0 ==> !s.result)
            && s.world.queries == w.queries + (if retries > 0 then 1 else 0)
  {
  }

  /**
   * The status is active only for exit code 0 with "running" in the output,
   * whatever the case of its letters and whatever else the output says; at most
   * one query is made, whatever the retry budget (tunnel.py:67-97).
   */
  lemma StatusReading(w: World, reg: nat -> QueryReply, retries: int, code: int, out: string, sub: string)
    requires reg(w.queries) == Answered(code, out)
    requires Contains(out, sub) && Lower(sub) == "running"
    ensures StatusStep(w, reg, retries).result <==> retries > 0 && code == 0
    ensures StatusStep(w, reg, retries).world.queries == w.queries + (if retries > 0 then 1 else 0)
  {
    ContainsLower(out, sub);
  }

  /** `is_tunnel_active` on the live host. */
  method IsTunnelActive(h: Host, retries: int) returns (active: bool)
    modifies h
    ensures Step(h.State(), active) == StatusStep(old(h.State()), h.registry, retries)
  {
    // `range(retries)` is empty for a count below one; every attempt returns, so a second one never starts
    for attempt := 0 to if retries < 0 then 0 else retries
      invariant attempt == 0
      invariant h.State() == old(h.State())
    {
      var reply := h.QueryService();
      if reply.QueryFailed? {
        return false;
      }
      var output := Lower(reply.stdout);
      if reply.code == 0 {
        if Contains(output, "running") {
          return true;
        }
        if Contains(output, "stopped") || Contains(output, "1  stopped") {
          return false;
        }
        return false;
      }
      return false;
    }
    return false;
  }

  // ---------------------------------------------------------------------
  // deactivate_tunnel

  /** The index, counted from `from`, of the first of `n` queries that does not see the service running, or `n`. */
  function FirstIdle(reg: nat -> QueryReply, from: nat, n: nat): (k: nat)
    ensures k <= n
    ensures k < n ==> Idle(reg, from + k)
    ensures forall i :: from <= i < from + k ==> !Idle(reg, i)
    decreases n
  {
    if n == 0 then 0
    else if Idle(reg, from) then 0
    else 1 + FirstIdle(reg, from + 1, n - 1)
  }

  /** `FirstIdle` is the only index with its three properties. */
  lemma {:induction false} FirstIdleIs(reg: nat -> QueryReply, from: nat, n: nat, k: nat)
    requires k <= n && (k < n ==> Idle(reg, from + k))
    requires forall i :: from <= i < from + k ==> !Idle(reg, i)
    ensures FirstIdle(reg, from, n) == k
    decreases n
  {
    if n != 0 && k != 0 {
      assert !Idle(reg, from);
      FirstIdleIs(reg, from + 1, n - 1, k - 1);
    }
  }

  /**
   * `deactivate_tunnel()`: uninstall; a failure is sorted by its text and ends
   * the call. After a successful uninstall, poll the status up to `PollChecks`
   * times and stop at the first reading that is not running.
   */
  function DeactivateStep(w: World, reg: nat -> QueryReply, cli: Cli): (s: Step<Outcome<Answer>>)
    ensures s.world.disk == w.disk && w.log <= s.world.log
  {
    match cli.uninstall
    case LaunchFailed(why) => Step(w, Raised(OSError(why)))
    case Exited(code, err) =>
      var w1 := w.Ran(Uninstall, cli.uninstall);
      if code != 0 then
        if Contains(Lower(err), "not found") then Step(w1, Returned(Answer(false, NotActiveMessage)))
        else Step(w1, Returned(Answer(false, DeactivationFailedPrefix + err)))
      else
        var k := FirstIdle(reg, w.queries, PollChecks);
        if k < PollChecks then Step(w1.(queries := w.queries + k + 1), Returned(Answer(true, DeactivatedMessage)))
        else Step(w1.(queries := w.queries + PollChecks), Returned(Answer(true, RequestedMessage)))
  }

  /**
   * A failed uninstall never polls: "not found" in any letter case reads as
   * "not active", any other failure is reported with the tool's text
   * (tunnel.py:50, 62-65).
   */
  lemma DeactivateFailure(w: World, reg: nat -> QueryReply, code: int, err: string, cli: Cli)
    requires cli.uninstall == Exited(code, err) && code != 0
    ensures var s := DeactivateStep(w, reg, cli);
            && s.world.queries == w.queries
            && NewCalls(w, s.world) == [Uninstall]
            && s.result == Returned(if Contains(Lower(err), "not found") then Answer(false, NotActiveMessage)
                                    else Answer(false, DeactivationFailedPrefix + err))
  {
    var s := DeactivateStep(w, reg, cli);
    assert NewCalls(w, s.world) == [Uninstall];
  }

  /** "not found" is recognised whatever the case of its letters (tunnel.py:63). */
  lemma DeactivateNotFoundAnyCase(w: World, reg: nat -> QueryReply, code: int, err: string, sub: string)
    requires code != 0 && Contains(err, sub) && Lower(sub) == "not found"
    ensures DeactivateStep(w, reg, Cli(Exited(code, err), Exited(0, ""))).result == Returned(Answer(false, NotActiveMessage))
  {
    ContainsLower(err, sub);
  }

  /**
   * After a successful uninstall the answer is always a success, the service
   * is marked gone and between 1 and `PollChecks` queries are made; the message
   * is "deactivated" exactly when one of those readings was not running
   * (tunnel.py:52-61).
   */
  lemma DeactivateBounded(w: World, reg: nat -> QueryReply, err: string, cli: Cli)
    requires cli.uninstall == Exited(0, err)
    ensures var s := DeactivateStep(w, reg, cli);
            && s.result.Returned? && s.result.value.ok
            && !s.world.installed
            && w.queries < s.world.queries <= w.queries + PollChecks
            && (s.result.value.msg == DeactivatedMessage <==>
                  exists j :: w.queries <= j < w.queries + PollChecks && Idle(reg, j))
            && (s.result.value.msg != DeactivatedMessage ==> s.result.value.msg == RequestedMessage)
  {
    var k := FirstIdle(reg, w.queries, PollChecks);
    assert |DeactivatedMessage| != |RequestedMessage|;
    if k < PollChecks {
      assert Idle(reg, w.queries + k);
    }
  }

  /**
   * The polling loop of `deactivate_tunnel`: read the status up to
   * `PollChecks` times and stop at the first reading that is not running.
   * `polls` counts the readings, so `elapsed` is `polls` times 0.8 s.
   */
  method PollUntilIdle(h: Host) returns (idle: bool)
    modifies h
    ensures var k := FirstIdle(h.registry, old(h.queries), PollChecks);
            && idle == (k < PollChecks)
            && h.State() == old(h.State()).(queries := old(h.queries) + if idle then k + 1 else PollChecks)
  {
    var polls := 0;
    while polls < PollChecks
      invariant 0 <= polls <= PollChecks
      invariant h.disk == old(h.disk) && h.installed == old(h.installed) && h.log == old(h.log)
      invariant h.queries == old(h.queries) + polls
      invariant forall i :: old(h.queries) <= i < old(h.queries) + polls ==> !Idle(h.registry, i)
    {
      var active := IsTunnelActive(h, 3);
      if !active {
        FirstIdleIs(h.registry, old(h.queries), PollChecks, polls);
        return true;
      }
      polls := polls + 1;
    }
    FirstIdleIs(h.registry, old(h.queries), PollChecks, PollChecks);
    return false;
  }

  /** `deactivate_tunnel` on the live host. */
  method DeactivateTunnel(h: Host, cli: Cli) returns (r: Outcome<Answer>)
    modifies h
    ensures Step(h.State(), r) == DeactivateStep(old(h.State()), h.registry, cli)
  {
    if cli.uninstall.LaunchFailed? {
      return Raised(OSError(cli.uninstall.reason));
    }
    ghost var w0 := h.State();
    h.RunCli(Uninstall, cli.uninstall);
    if cli.uninstall.code != 0 {
      var err := cli.uninstall.stderr;
      var found := Contains(Lower(err), "not found");
      r := Returned(if found then Answer(false, NotActiveMessage) else Answer(false, DeactivationFailedPrefix + err));
      assert DeactivateStep(w0, h.registry, cli) == Step(w0.Ran(Uninstall, cli.uninstall), r);
      return;
    }
    ghost var w1 := h.State();
    ghost var k := FirstIdle(h.registry, w0.queries, PollChecks);
    assert DeactivateStep(w0, h.registry, cli)
        == if k < PollChecks then Step(w1.(queries := w0.queries + k + 1), Returned(Answer(true, DeactivatedMessage)))
           else Step(w1.(queries := w0.queries + PollChecks), Returned(Answer(true, RequestedMessage)));
    var idle := PollUntilIdle(h);
    if idle {
      return Returned(Answer(true, DeactivatedMessage));
    }
    return Returned(Answer(true, RequestedMessage));
  }
}
