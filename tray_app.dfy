/**
 * tray_app.py: the older, self-contained copy of the lifecycle functions and
 * the orchestrators. Apart from message boxes it matches tunnel.py and
 * ui.py, except in two ways: its artifacts live in a folder of their own,
 * and `on_disconnect` tests the function `is_tunnel_active` itself instead
 * of calling it, so it always deactivates.
 */
module TrayApp {
  import opened Text
  import opened Config
  import opened Env
  import opened Tunnel
  import Ui

  /** The folder under %APPDATA% used by this copy (tray_app.py:20). */
  const TrayFolder := "AmpliFiTeleportForDesktop"

  /** tray_app.py:20-24. */
  function TrayLayout(appdata: string): Layout {
    FolderLayout(appdata, TrayFolder)
  }

  /** No artifact of this copy is an artifact of the live application: the two folders differ (tray_app.py:20, config.py:10). */
  lemma FoldersApart(appdata: string, p: Path)
    ensures !(LiveLayout(appdata).Holds(p) && TrayLayout(appdata).Holds(p))
  {
    assert TrayFolder == AppFolder + "ForDesktop";
    var names := [ConfigName, TokenName, UuidName];
    forall n1, n2 | n1 in names && n2 in names
      ensures Join(Join(appdata, AppFolder), n1) != Join(Join(appdata, AppFolder + "ForDesktop"), n2)
    {
      FoldersDisjoint(appdata, AppFolder, "ForDesktop", n1, n2);
    }
  }

  /** Whatever this copy's `generate_config` does, the live application's files are untouched. */
  lemma GenerateSparesLiveFiles(w: World, appdata: string, pin: Option<string>, net: Backend, p: Path)
    requires LiveLayout(appdata).Holds(p)
    ensures Same(w.disk, GenerateConfigStep(w, TrayLayout(appdata), pin, net).world.disk, p)
  {
    FoldersApart(appdata, p);
  }

  // ---------------------------------------------------------------------
  // The lifecycle functions (tray_app.py:54-146), on this copy's folder.

  method GenerateConfig(h: Host, appdata: string, pin: Option<string>, net: Backend) returns (r: Answer)
    modifies h
    ensures Step(h.State(), r) == GenerateConfigStep(old(h.State()), TrayLayout(appdata), pin, net)
  {
    r := Tunnel.GenerateConfig(h, TrayLayout(appdata), pin, net);
  }

  method ActivateTunnel(h: Host, appdata: string, cli: Cli) returns (r: Outcome<Answer>)
    modifies h
    ensures Step(h.State(), r) == ActivateStep(old(h.State()), TrayLayout(appdata), cli)
  {
    r := Tunnel.ActivateTunnel(h, TrayLayout(appdata), cli);
  }

  method DeactivateTunnel(h: Host, cli: Cli) returns (r: Outcome<Answer>)
    modifies h
    ensures Step(h.State(), r) == DeactivateStep(old(h.State()), h.registry, cli)
  {
    r := Tunnel.DeactivateTunnel(h, cli);
  }

  method IsTunnelActive(h: Host, retries: int) returns (active: bool)
    modifies h
    ensures Step(h.State(), active) == StatusStep(old(h.State()), h.registry, retries)
  {
    active := Tunnel.IsTunnelActive(h, retries);
  }

  // ---------------------------------------------------------------------
  // The orchestrators (tray_app.py:343-416).

  method ShowPinDialog(h: Host, appdata: string, events: seq<Ui.DialogEvent>, andActivate: bool, net: Backend, cli: Cli)
    returns (r: Outcome<Answer>)
    modifies h
    ensures Step(h.State(), r) == Ui.ShowPinDialogStep(old(h.State()), TrayLayout(appdata), Ui.PinDialog("", events), andActivate, net, cli)
  {
    r := Ui.ShowPinDialog(h, TrayLayout(appdata), events, andActivate, net, cli);
  }

  method OnRefreshConfig(h: Host, appdata: string, net: Backend, cli: Cli) returns (r: Outcome<Option<Answer>>)
    modifies h
    ensures Step(h.State(), r) == Ui.RefreshConfigStep(old(h.State()), TrayLayout(appdata), net, cli)
  {
    r := Ui.OnRefreshConfig(h, TrayLayout(appdata), net, cli);
  }

  method OnConnect(h: Host, appdata: string, events: seq<Ui.DialogEvent>, net: Backend, cli: Cli) returns (r: Outcome<Option<Answer>>)
    modifies h
    ensures Step(h.State(), r) == Ui.ConnectStep(old(h.State()), TrayLayout(appdata), Ui.PinDialog("", events), net, cli)
  {
    r := Ui.OnConnect(h, TrayLayout(appdata), events, net, cli);
  }

  /**
   * `on_disconnect` as written: `not is_tunnel_active` negates a function
   * object, which is always true, so the status is never asked and the
   * tunnel is always deactivated.
   */
  method OnDisconnect(h: Host, cli: Cli) returns (r: Outcome<Answer>)
    modifies h
    ensures Step(h.State(), r) == DeactivateStep(old(h.State()), h.registry, cli)
  {
    r := Tunnel.DeactivateTunnel(h, cli);
  }

  /**
   * This copy's `on_disconnect` never answers "No Teleport Tunnel is
   * active" and runs the uninstall first whenever it can start, whatever
   * the status; the intended version makes no CLI run on an inactive
   * reading (tray_app.py:393-399 against ui.py:322-329).
   */
  lemma DisconnectIgnoresStatus(w: World, reg: nat -> QueryReply, cli: Cli)
    requires cli.uninstall.Exited?
    ensures var s := DeactivateStep(w, reg, cli);
            && s.result != Returned(Answer(false, Ui.NoActiveTunnelMessage))
            && |NewCalls(w, s.world)| >= 1 && NewCalls(w, s.world)[0] == Uninstall
    ensures !ReportsRunning(reg(w.queries)) ==> NewCalls(w, Ui.DisconnectStep(w, reg, cli).world) == []
  {
    var s := DeactivateStep(w, reg, cli);
    assert NewCalls(w, s.world) == [Uninstall];
    if cli.uninstall.code != 0 {
      assert (DeactivationFailedPrefix + cli.uninstall.stderr)[0] == 'D';
    }
  }

  /** The uninstall's text "tunnel not found" holds "not found" once lower-cased. */
  lemma NotFoundText()
    ensures Contains(Lower("tunnel not found"), "not found")
  {
    LowerKeeps("tunnel not found");
    ContainsAtEnd("tunnel ", "not found");
  }

  /**
   * A machine with no tunnel service: the status query exits with code 1060
   * (service not installed) and the uninstall fails with "tunnel not found".
   * The intended version answers "No Teleport Tunnel is active" and runs
   * nothing; this copy runs the uninstall and answers "Tunnel not active.".
   */
  lemma DisconnectCounterexample()
    ensures var w := World(map[], false, 0, []);
            var reg := (n: nat) => Answered(1060, "");
            var cli := Cli(Exited(1, "tunnel not found"), Exited(0, ""));
            && Ui.DisconnectStep(w, reg, cli) == Step(w.Polled(), Returned(Answer(false, Ui.NoActiveTunnelMessage)))
            && DeactivateStep(w, reg, cli) == Step(World(map[], false, 0, [Uninstall]), Returned(Answer(false, NotActiveMessage)))
  {
    NotFoundText();
  }

  method OnDeleteConfig(h: Host, appdata: string, confirmed: bool, cli: Cli) returns (r: Option<Answer>)
    modifies h
    ensures Step(h.State(), r) == Ui.DeleteConfigStep(old(h.State()), TrayLayout(appdata), h.registry, h.locked, confirmed, cli)
  {
    r := Ui.OnDeleteConfig(h, TrayLayout(appdata), confirmed, cli);
  }
}
