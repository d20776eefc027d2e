/**
 * teleportSetup.py: a copy of the lifecycle functions that takes the three
 * artifact paths from a `configs` list by position (config, token,
 * identity). It never defines or imports `WG_EXE`, so both CLI functions
 * raise `NameError` as soon as they build a `wireguard.exe` command line.
 */
module TeleportSetup {
  import opened Text
  import opened Config
  import opened Env
  import Tunnel

  /** The global name the CLI functions read without defining it (teleportSetup.py:60, 70). */
  const MissingName := "WG_EXE"

  /** The paths `configs[0]`, `configs[1]` and `configs[2]`. */
  function PathsOf(configs: seq<Path>): Layout
    requires |configs| >= 3
  {
    Layout(configs[0], configs[1], configs[2])
  }

  /** `generate_config(pin, configs)`: a list of fewer than three paths raises before the `try`. */
  function GenerateConfigStep(w: World, pin: Option<string>, configs: seq<Path>, net: Backend): (s: Step<Outcome<Answer>>)
  {
    if |configs| < 3 then Step(w, Raised(IndexError))
    else
      var g := Tunnel.GenerateConfigStep(w, PathsOf(configs), pin, net);
      Step(g.world, Returned(g.result))
  }

  /**
   * The paths are taken by position: on success `configs[0]` holds the
   * config text and, with a PIN, `configs[1]` holds the token
   * `get_device_token` returned; files not among the first three entries
   * never change. Without three entries it raises `IndexError` and nothing
   * happens (teleportSetup.py:19-48).
   */
  lemma GeneratePositions(w: World, pin: Option<string>, configs: seq<Path>, net: Backend)
    ensures |configs| < 3 ==> GenerateConfigStep(w, pin, configs, net) == Step(w, Raised(IndexError))
    ensures var s := GenerateConfigStep(w, pin, configs, net);
            |configs| >= 3 && PathsOf(configs).Distinct() ==>
              && s.result.Returned?
              && (forall p :: p !in configs[..3] ==> Same(w.disk, s.world.disk, p))
              && (s.result.value.ok ==>
                    && configs[0] in s.world.disk && s.world.disk[configs[0]] == s.result.value.msg
                    && (Tunnel.Truthy(pin) ==>
                          configs[1] in s.world.disk && exists h :: net.token(h, pin.value) == Ok(s.world.disk[configs[1]])))
  {
    if |configs| >= 3 && PathsOf(configs).Distinct() {
      var lay := PathsOf(configs);
      var s := Tunnel.GenerateConfigStep(w, lay, pin, net);
      Tunnel.GenerateConfigResult(w, lay, pin, net);
      assert forall p :: lay.Holds(p) ==> p in configs[..3];
      if s.result.ok && Tunnel.Truthy(pin) {
        TokenFromExchange(w, lay, pin, net);
      }
    }
  }

  /** After a successful run with a PIN the token file holds what `get_device_token` returned. */
  lemma TokenFromExchange(w: World, lay: Layout, pin: Option<string>, net: Backend)
    requires lay.Distinct() && Tunnel.Truthy(pin)
    requires Tunnel.GenerateConfigStep(w, lay, pin, net).result.ok
    ensures var s := Tunnel.GenerateConfigStep(w, lay, pin, net);
            lay.token in s.world.disk && exists h :: net.token(h, pin.value) == Ok(s.world.disk[lay.token])
  {
    var hint := if lay.uuid in w.disk then Strip(w.disk[lay.uuid]) else net.hint.value;
    assert net.token(hint, pin.value).Ok?;
  }

  /**
   * `activate_tunnel(configs)`: fewer than three paths raise `IndexError`; a
   * missing config file is refused; otherwise building the uninstall command
   * raises `NameError` before anything runs (teleportSetup.py:50-65).
   */
  function ActivateStep(w: World, configs: seq<Path>): (s: Step<Outcome<Answer>>)
  {
    if |configs| < 3 then Step(w, Raised(IndexError))
    else if configs[0] !in w.disk then Step(w, Returned(Answer(false, Tunnel.NoConfigMessage)))
    else Step(w, Raised(NameError(MissingName)))
  }

  /** This `activate_tunnel` never runs the CLI and never reports success, and it raises exactly when a config file is there. */
  lemma ActivateNeverRuns(w: World, configs: seq<Path>)
    ensures var s := ActivateStep(w, configs);
            && s.world == w
            && !(s.result.Returned? && s.result.value.ok)
            && (|configs| >= 3 ==> (s.result.Raised? <==> configs[0] in w.disk))
            && (s.result.Raised? && |configs| >= 3 ==> s.result.exc == NameError(MissingName))
  {
  }

  /**
   * With a config file present and an install that succeeds, tunnel.py's
   * `activate_tunnel` reports "Tunnel activated!" while this copy raises
   * `NameError` without running anything.
   */
  lemma ActivateCounterexample(w: World, configs: seq<Path>)
    requires |configs| >= 3 && configs[0] in w.disk
    ensures Tunnel.ActivateStep(w, PathsOf(configs), Cli(Exited(0, ""), Exited(0, ""))).result
            == Returned(Answer(true, Tunnel.ActivatedMessage))
    ensures ActivateStep(w, configs) == Step(w, Raised(NameError(MissingName)))
  {
  }

  /** `deactivate_tunnel()`: raises `NameError` on its first line, always (teleportSetup.py:67-86). */
  function DeactivateStep(w: World): (s: Step<Outcome<Answer>>)
  {
    Step(w, Raised(NameError(MissingName)))
  }

  /** `generate_config` on the live host. */
  method GenerateConfig(h: Host, pin: Option<string>, configs: seq<Path>, net: Backend) returns (r: Outcome<Answer>)
    modifies h
    ensures Step(h.State(), r) == GenerateConfigStep(old(h.State()), pin, configs, net)
  {
    if |configs| < 3 {
      return Raised(IndexError);
    }
    var generated := Tunnel.GenerateConfig(h, PathsOf(configs), pin, net);
    return Returned(generated);
  }

  /** `activate_tunnel` on the live host. */
  method ActivateTunnel(h: Host, configs: seq<Path>) returns (r: Outcome<Answer>)
    ensures Step(h.State(), r) == ActivateStep(h.State(), configs)
  {
    if |configs| < 3 {
      return Raised(IndexError);
    }
    if configs[0] !in h.disk {
      return Returned(Answer(false, Tunnel.NoConfigMessage));
    }
    return Raised(NameError(MissingName));
  }

  /** `deactivate_tunnel` on the live host. */
  method DeactivateTunnel(h: Host) returns (r: Outcome<Answer>)
    ensures Step(h.State(), r) == DeactivateStep(h.State())
  {
    return Raised(NameError(MissingName));
  }

  /** `is_tunnel_active`: the same code as tunnel.py's (teleportSetup.py:88-119). */
  method IsTunnelActive(h: Host, retries: int) returns (active: bool)
    modifies h
    ensures Step(h.State(), active) == Tunnel.StatusStep(old(h.State()), h.registry, retries)
  {
    active := Tunnel.IsTunnelActive(h, retries);
  }
}
