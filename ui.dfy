/**
 * ui.py: the PIN dialog's rules, the button choice of the options window and
 * the five orchestrators the tray menu and the window call. Each
 * orchestrator is a function `...Step` on a snapshot of the machine, built
 * from the lifecycle functions of `Tunnel`, and a method on the live `Host`
 * proved to end where that function says.
 *
 * The artifact paths are the `lay` parameter; the live application passes
 * `Config.LiveLayout`. Toasts, logging and message boxes only inform the
 * user and are not modelled.
 */
module Ui {
  import opened Text
  import opened Config
  import opened Env
  import opened Tunnel

  const PinLength := 5
  const NoPinMessage := "No PIN entered."
  const ConnectedMessage := "Tunnel connected successfully"
  const GeneratedMessage := "Config generated successfully"
  const NewConnectionMessage := "Successfully Created New Connection"
  const NewConnectionErrorMessage := "Error Creating New Connection"
  const NoActiveTunnelMessage := "No Teleport Tunnel is active"
  const DeletedMessage := "Configuration Deleted"
  const DeleteErrorMessage := "Error while deleting configuration"

  // ---------------------------------------------------------------------
  // custom_pin_dialog

  /** What the user does in the PIN dialog: a keystroke proposing a new field content, Submit, or Cancel. */
  datatype DialogEvent = Edit(proposed: string) | SubmitPressed | CancelPressed

  /** The entry's key validation: a keystroke is accepted when the field stays within five characters. */
  predicate AcceptsEdit(proposed: string) {
    |proposed| <= PinLength
  }

  /**
   * What `custom_pin_dialog` returns for a field holding `field` and the
   * events that follow. Submit with a stripped entry of any length but five
   * keeps the dialog open; Cancel, or the window closing when the events run
   * out, gives no PIN.
   */
  function PinDialog(field: string, events: seq<DialogEvent>): (pin: Option<string>)
    requires |field| <= PinLength
    ensures pin.Some? ==> |pin.value| == PinLength && Strip(pin.value) == pin.value
    decreases |events|
  {
    if events == [] then None
    else match events[0]
      case Edit(p) => PinDialog(if AcceptsEdit(p) then p else field, events[1..])
      case SubmitPressed =>
        if |Strip(field)| == PinLength then
          StripIdempotent(field);
          Some(Strip(field))
        else PinDialog(field, events[1..])
      case CancelPressed => None
  }

  /**
   * The field never holds more than five characters, so a PIN comes out only
   * when Submit finds exactly five characters with no whitespace at either
   * end, and then it is the field's content (ui.py:46-49, 69-75).
   */
  lemma PinDialogSubmit(field: string, rest: seq<DialogEvent>)
    requires |field| <= PinLength
    ensures var pin := PinDialog(field, [SubmitPressed] + rest);
            && (|Strip(field)| == PinLength <==> pin == Some(field))
            && (|Strip(field)| != PinLength ==> pin == PinDialog(field, rest))
  {
    var events := [SubmitPressed] + rest;
    assert events[1..] == rest;
    if |Strip(field)| == PinLength {
      StripFull(field, PinLength);
    }
  }

  /** A keystroke that would make the field longer than five characters leaves it as it was (ui.py:46-49). */
  lemma PinDialogRejectsLongEdit(field: string, proposed: string, rest: seq<DialogEvent>)
    requires |field| <= PinLength
    ensures !AcceptsEdit(proposed) ==> PinDialog(field, [Edit(proposed)] + rest) == PinDialog(field, rest)
    ensures AcceptsEdit(proposed) ==> PinDialog(field, [Edit(proposed)] + rest) == PinDialog(proposed, rest)
  {
    assert ([Edit(proposed)] + rest)[1..] == rest;
  }

  // ---------------------------------------------------------------------
  // refresh_buttons

  datatype Button = Connect | Disconnect | DeleteConfiguration | Quit

  /**
   * The buttons of the options window, top to bottom: exactly one of Connect
   * (tunnel inactive) and Disconnect (tunnel active), Delete when some
   * artifact file exists, and Quit last.
   */
  function Buttons(active: bool, anyArtifact: bool): (bs: seq<Button>)
    ensures Connect in bs <==> !active
    ensures Disconnect in bs <==> active
    ensures DeleteConfiguration in bs <==> anyArtifact
    ensures |bs| == (if anyArtifact then 3 else 2) && bs[0] != Quit && bs[|bs| - 1] == Quit
  {
    (if active then [Disconnect] else [Connect]) + (if anyArtifact then [DeleteConfiguration] else []) + [Quit]
  }

  /** Some of the three artifact files exists. */
  predicate AnyArtifact(d: map<Path, string>, lay: Layout) {
    lay.token in d || lay.uuid in d || lay.config in d
  }

  /** `refresh_buttons` on the live host: one status query with four retries, then the choice. */
  method RefreshButtons(h: Host, lay: Layout) returns (bs: seq<Button>)
    modifies h
    ensures var st := StatusStep(old(h.State()), h.registry, 4);
            && h.State() == st.world
            && bs == Buttons(st.result, AnyArtifact(h.disk, lay))
  {
    var active := IsTunnelActive(h, 4);
    bs := Buttons(active, lay.token in h.disk || lay.uuid in h.disk || lay.config in h.disk);
  }

  // ---------------------------------------------------------------------
  // show_pin_dialog

  /** Whether `pin` is None or blank once stripped. */
  predicate NoPin(pin: Option<string>) {
    pin.None? || Strip(pin.value) == ""
  }

  /**
   * `show_pin_dialog(and_activate)` once the dialog returned `pin`: no PIN
   * ends it; otherwise generate, and on success activate when asked to.
   */
  function ShowPinDialogStep(w: World, lay: Layout, pin: Option<string>, andActivate: bool, net: Backend, cli: Cli): (s: Step<Outcome<Answer>>)
  {
    if NoPin(pin) then Step(w, Returned(Answer(false, NoPinMessage)))
    else
      var g := GenerateConfigStep(w, lay, pin, net);
      if !g.result.ok then Step(g.world, Returned(Answer(false, g.result.msg)))
      else if !andActivate then Step(g.world, Returned(Answer(true, GeneratedMessage)))
      else
        var a := ActivateStep(g.world, lay, cli);
        match a.result
        case Raised(e) => Step(a.world, Raised(e))
        case Returned(r) =>
          Step(a.world, Returned(if r.ok then Answer(true, ConnectedMessage) else Answer(false, r.msg)))
  }

  /** No PIN: nothing is called and nothing changes (ui.py:278-280). */
  lemma ShowPinNoPin(w: World, lay: Layout, pin: Option<string>, andActivate: bool, net: Backend, cli: Cli)
    requires NoPin(pin)
    ensures ShowPinDialogStep(w, lay, pin, andActivate, net, cli) == Step(w, Returned(Answer(false, NoPinMessage)))
  {
  }

  /** A failed generation is reported with its text and no CLI run follows (ui.py:282-284). */
  lemma ShowPinGenerateFailure(w: World, lay: Layout, pin: Option<string>, andActivate: bool, net: Backend, cli: Cli)
    requires !NoPin(pin) && !GenerateConfigStep(w, lay, pin, net).result.ok
    ensures var s := ShowPinDialogStep(w, lay, pin, andActivate, net, cli);
            && s.result == Returned(Answer(false, GenerateConfigStep(w, lay, pin, net).result.msg))
            && s.world.installed == w.installed
            && forall c :: c in NewCalls(w, s.world) ==> !c.Uninstall? && !c.Install?
  {
    GenerateRunsNoCli(w, lay, pin, net);
  }

  /**
   * Success means the config file holds the text `connect_device` gave and,
   * when activation was asked for, the install ran last and left the service
   * installed; a failed activation is reported with its own message
   * (ui.py:282-295).
   */
  lemma ShowPinSuccess(w: World, lay: Layout, pin: Option<string>, andActivate: bool, net: Backend, cli: Cli)
    requires lay.Distinct()
    ensures var s := ShowPinDialogStep(w, lay, pin, andActivate, net, cli);
            var g := GenerateConfigStep(w, lay, pin, net);
            && (s.result.Returned? && s.result.value.ok ==>
                  && !NoPin(pin) && g.result.ok
                  && lay.config in s.world.disk && s.world.disk[lay.config] == g.result.msg
                  && s.result.value.msg == (if andActivate then ConnectedMessage else GeneratedMessage)
                  && (andActivate ==> s.world.installed && s.world.log[|s.world.log| - 1] == Install(lay.config)))
            && (!NoPin(pin) && g.result.ok && !andActivate ==> s == Step(g.world, Returned(Answer(true, GeneratedMessage))))
            && (!NoPin(pin) && g.result.ok && andActivate ==>
                  var a := ActivateStep(g.world, lay, cli);
                  && (s.result.Raised? <==> a.result.Raised?)
                  && (a.result.Returned? && a.result.value.ok ==> s.result == Returned(Answer(true, ConnectedMessage)))
                  && (a.result.Returned? && !a.result.value.ok ==> s.result == Returned(Answer(false, a.result.value.msg))))
  {
    var s := ShowPinDialogStep(w, lay, pin, andActivate, net, cli);
    var g := GenerateConfigStep(w, lay, pin, net);
    if !NoPin(pin) && g.result.ok {
      GenerateConfigResult(w, lay, pin, net);
      if andActivate && cli.uninstall.Exited? {
        ActivateOutcome(g.world, lay, cli, 0, "");
      }
    }
  }

  /** `show_pin_dialog` on the live host; the dialog starts with an empty field. */
  method ShowPinDialog(h: Host, lay: Layout, events: seq<DialogEvent>, andActivate: bool, net: Backend, cli: Cli)
    returns (r: Outcome<Answer>)
    modifies h
    ensures Step(h.State(), r) == ShowPinDialogStep(old(h.State()), lay, PinDialog("", events), andActivate, net, cli)
  {
    var pin := PinDialog("", events);
    if pin.None? || Strip(pin.value) == "" {
      return Returned(Answer(false, NoPinMessage));
    }
    var generated := GenerateConfig(h, lay, pin, net);
    if !generated.ok {
      return Returned(Answer(false, generated.msg));
    }
    if andActivate {
      var activated := ActivateTunnel(h, lay, cli);
      if activated.Raised? {
        return activated;
      }
      if activated.value.ok {
        return Returned(Answer(true, ConnectedMessage));
      }
      return Returned(Answer(false, activated.value.msg));
    }
    return Returned(Answer(true, GeneratedMessage));
  }

  // ---------------------------------------------------------------------
  // on_refresh_config

  /**
   * `on_refresh_config`: `None` without a token file; otherwise regenerate
   * from the stored token and, on success, activate and return what
   * activation returned; on failure return the generation's answer.
   */
  function RefreshConfigStep(w: World, lay: Layout, net: Backend, cli: Cli): (s: Step<Outcome<Option<Answer>>>)
  {
    if lay.token !in w.disk then Step(w, Returned(None))
    else
      var g := GenerateConfigStep(w, lay, None, net);
      if !g.result.ok then Step(g.world, Returned(Some(g.result)))
      else
        var a := ActivateStep(g.world, lay, cli);
        match a.result
        case Raised(e) => Step(a.world, Raised(e))
        case Returned(r) => Step(a.world, Returned(Some(r)))
  }

  /** Without a token file nothing is generated and the result is `None` (ui.py:298-300). */
  lemma RefreshNeedsToken(w: World, lay: Layout, net: Backend, cli: Cli)
    requires lay.token !in w.disk
    ensures RefreshConfigStep(w, lay, net, cli) == Step(w, Returned(None))
  {
  }

  /**
   * With a token file: a failed fetch is returned as it came and nothing is
   * run; after a successful fetch the config file exists, so activation
   * never answers "No config found", and its answer is returned unchanged
   * (ui.py:301-309).
   */
  lemma RefreshOutcome(w: World, lay: Layout, net: Backend, cli: Cli)
    requires lay.Distinct() && lay.token in w.disk
    ensures var s := RefreshConfigStep(w, lay, net, cli);
            var token := Strip(w.disk[lay.token]);
            && (net.config(token).Fails? ==>
                  s.result == Returned(Some(Answer(false, net.config(token).message))) && s.world.installed == w.installed)
            && (net.config(token).Ok? && cli.uninstall.Exited? && cli.install.Exited? ==>
                  && s.result == Returned(Some(if cli.install.code == 0 then Answer(true, ActivatedMessage)
                                               else Answer(false, ActivationFailedPrefix + cli.install.stderr)))
                  && s.world.disk[lay.config] == net.config(token).value
                  && (cli.install.code == 0 ==> s.world.installed))
            && (net.config(token).Ok? && (cli.uninstall.LaunchFailed? || cli.install.LaunchFailed?) ==> s.result.Raised?)
  {
    var token := Strip(w.disk[lay.token]);
    var g := GenerateConfigStep(w, lay, None, net);
    if net.config(token).Ok? && cli.uninstall.Exited? {
      ActivateOutcome(g.world, lay, cli, 0, "");
    }
  }

  /** `on_refresh_config` on the live host. */
  method OnRefreshConfig(h: Host, lay: Layout, net: Backend, cli: Cli) returns (r: Outcome<Option<Answer>>)
    modifies h
    ensures Step(h.State(), r) == RefreshConfigStep(old(h.State()), lay, net, cli)
  {
    if lay.token !in h.disk {
      return Returned(None);
    }
    var generated := GenerateConfig(h, lay, None, net);
    if !generated.ok {
      return Returned(Some(generated));
    }
    var activated := ActivateTunnel(h, lay, cli);
    if activated.Raised? {
      return Raised(activated.exc);
    }
    return Returned(Some(activated.value));
  }

  // ---------------------------------------------------------------------
  // on_connect

  /**
   * `on_connect`: without a token file, run the PIN flow with activation and
   * report success unless it raised; with one, refresh.
   */
  function ConnectStep(w: World, lay: Layout, pin: Option<string>, net: Backend, cli: Cli): (s: Step<Outcome<Option<Answer>>>)
  {
    if lay.token !in w.disk then
      var p := ShowPinDialogStep(w, lay, pin, true, net, cli);
      Step(p.world, Returned(Some(if p.result.Raised? then Answer(false, NewConnectionErrorMessage)
                                  else Answer(true, NewConnectionMessage))))
    else RefreshConfigStep(w, lay, net, cli)
  }

  /**
   * Without a token file the answer is "Successfully Created New Connection"
   * whatever the PIN flow answered, even with no PIN or a rejected one; only
   * an exception gives the error answer. With a token file it is the
   * refresh (ui.py:311-320).
   */
  lemma ConnectOutcome(w: World, lay: Layout, pin: Option<string>, net: Backend, cli: Cli)
    ensures var s := ConnectStep(w, lay, pin, net, cli);
            var p := ShowPinDialogStep(w, lay, pin, true, net, cli);
            && (lay.token !in w.disk ==>
                  && s.world == p.world
                  && (p.result.Returned? <==> s.result == Returned(Some(Answer(true, NewConnectionMessage))))
                  && (p.result.Raised? <==> s.result == Returned(Some(Answer(false, NewConnectionErrorMessage)))))
            && (lay.token !in w.disk && (NoPin(pin) || !GenerateConfigStep(w, lay, pin, net).result.ok) ==>
                  s.result == Returned(Some(Answer(true, NewConnectionMessage))))
            && (lay.token in w.disk ==> s == RefreshConfigStep(w, lay, net, cli) && s.result != Returned(None))
  {
  }

  /**
   * The first connection end to end: with no token file, a PIN, a backend
   * that answers all three calls and an install that exits 0, the identity,
   * token and config files all exist, the config holds what the backend gave
   * for the stored token, the service is installed and the answer is
   * "Successfully Created New Connection" (ui.py:311-316, tunnel.py:12-45).
   */
  lemma ConnectFromScratch(w: World, lay: Layout, pin: Option<string>, net: Backend, cli: Cli)
    requires lay.Distinct() && lay.token !in w.disk && !NoPin(pin)
    requires lay.uuid in w.disk || net.hint.Ok?
    requires forall hint, p :: net.token(hint, p).Ok?
    requires forall t :: net.config(t).Ok?
    requires cli.uninstall.Exited? && cli.install.Exited? && cli.install.code == 0
    ensures var s := ConnectStep(w, lay, pin, net, cli);
            && lay.uuid in s.world.disk && lay.token in s.world.disk && lay.config in s.world.disk
            && s.world.disk[lay.config] == net.config(s.world.disk[lay.token]).value
            && s.world.installed
            && ShowPinDialogStep(w, lay, pin, true, net, cli).result == Returned(Answer(true, ConnectedMessage))
            && s.result == Returned(Some(Answer(true, NewConnectionMessage)))
  {
    var hint := if lay.uuid in w.disk then Strip(w.disk[lay.uuid]) else net.hint.value;
    var w0 := if lay.uuid in w.disk then w else w.Logged(GenerateHint).Written(lay.uuid, hint);
    assert pin.value != "";
    var t := net.token(hint, pin.value).value;
    var w2 := w0.Logged(GetDeviceToken(hint, pin.value)).Written(lay.token, t);
    var g := GenerateConfigStep(w, lay, pin, net);
    assert g == FetchStep(w2, lay, t, net);
    assert g.result.ok && g.world.disk[lay.token] == t;
    ActivateOutcome(g.world, lay, cli, 0, "");
  }

  /** `on_connect` on the live host. */
  method OnConnect(h: Host, lay: Layout, events: seq<DialogEvent>, net: Backend, cli: Cli) returns (r: Outcome<Option<Answer>>)
    modifies h
    ensures Step(h.State(), r) == ConnectStep(old(h.State()), lay, PinDialog("", events), net, cli)
  {
    if lay.token !in h.disk {
      var shown := ShowPinDialog(h, lay, events, true, net, cli);
      if shown.Raised? {
        return Returned(Some(Answer(false, NewConnectionErrorMessage)));
      }
      return Returned(Some(Answer(true, NewConnectionMessage)));
    }
    r := OnRefreshConfig(h, lay, net, cli);
  }

  // ---------------------------------------------------------------------
  // on_disconnect

  /** `on_disconnect`: ask the status (three retries); deactivate only when it reads active. */
  function DisconnectStep(w: World, reg: nat -> QueryReply, cli: Cli): (s: Step<Outcome<Answer>>)
  {
    var st := StatusStep(w, reg, 3);
    if !st.result then Step(st.world, Returned(Answer(false, NoActiveTunnelMessage)))
    else DeactivateStep(st.world, reg, cli)
  }

  /**
   * An inactive reading answers "No Teleport Tunnel is active" after one
   * query and runs nothing; an active one hands over to deactivation after
   * that query (ui.py:322-329).
   */
  lemma DisconnectOutcome(w: World, reg: nat -> QueryReply, cli: Cli)
    ensures var s := DisconnectStep(w, reg, cli);
            && (!ReportsRunning(reg(w.queries)) ==>
                  s == Step(w.Polled(), Returned(Answer(false, NoActiveTunnelMessage))))
            && (ReportsRunning(reg(w.queries)) ==>
                  s == DeactivateStep(w.Polled(), reg, cli) && s.result != Returned(Answer(false, NoActiveTunnelMessage)))
  {
    var s := DisconnectStep(w, reg, cli);
    if ReportsRunning(reg(w.queries)) && cli.uninstall.Exited? && cli.uninstall.code != 0 {
      var err := cli.uninstall.stderr;
      assert (DeactivationFailedPrefix + err)[0] == 'D';
    }
  }

  /** `on_disconnect` on the live host. */
  method OnDisconnect(h: Host, cli: Cli) returns (r: Outcome<Answer>)
    modifies h
    ensures Step(h.State(), r) == DisconnectStep(old(h.State()), h.registry, cli)
  {
    var active := IsTunnelActive(h, 3);
    if !active {
      return Returned(Answer(false, NoActiveTunnelMessage));
    }
    r := DeactivateTunnel(h, cli);
  }

  // ---------------------------------------------------------------------
  // on_delete_config

  /**
   * Remove each path of `paths` that exists, in order; a removal that raises
   * (a path in `locked`) stops the rest. The result tells whether all went through.
   */
  function RemoveEach(w: World, paths: seq<Path>, locked: set<Path>): (s: Step<bool>)
    ensures s.world.installed == w.installed && s.world.queries == w.queries && w.log <= s.world.log
    ensures forall p :: p !in paths ==> Same(w.disk, s.world.disk, p)
    ensures s.result <==> forall p :: p in paths && p in w.disk ==> p !in locked
    ensures s.result ==> forall p :: p in paths ==> p !in s.world.disk
    ensures !s.result ==> exists p :: p in paths && p in locked && p in s.world.disk
    decreases |paths|
  {
    if paths == [] then Step(w, true)
    else
      assert forall p :: p in paths <==> p == paths[0] || p in paths[1..];
      if paths[0] !in w.disk then RemoveEach(w, paths[1..], locked)
      else if paths[0] in locked then Step(w, false)
      else RemoveEach(w.Removed(paths[0]), paths[1..], locked)
  }

  /** The removals, in order, of the paths of `paths` present in `d`. */
  function Removals(d: map<Path, string>, paths: seq<Path>): seq<Call>
    decreases |paths|
  {
    if paths == [] then []
    else (if paths[0] in d then [Remove(paths[0])] else []) + Removals(d, paths[1..])
  }

  /** Removing a path that is not among `paths` does not change their removals. */
  lemma {:induction false} RemovalsFrame(d: map<Path, string>, p: Path, paths: seq<Path>)
    requires p !in paths
    ensures Removals(d - {p}, paths) == Removals(d, paths)
    decreases |paths|
  {
    if paths != [] {
      RemovalsFrame(d, p, paths[1..]);
    }
  }

  /** With distinct paths none of which is locked, exactly the existing ones are removed, in order. */
  lemma {:induction false} RemoveEachOrder(w: World, paths: seq<Path>, locked: set<Path>)
    requires forall i, j :: 0 <= i < j < |paths| ==> paths[i] != paths[j]
    requires forall p :: p in paths ==> p !in locked
    ensures NewCalls(w, RemoveEach(w, paths, locked).world) == Removals(w.disk, paths)
    decreases |paths|
  {
    if paths != [] {
      var rest := paths[1..];
      assert forall p :: p in rest ==> p in paths;
      assert forall i, j :: 0 <= i < j < |rest| ==> rest[i] != rest[j] by {
        forall i, j | 0 <= i < j < |rest| ensures rest[i] != rest[j] {
          assert rest[i] == paths[i + 1] && rest[j] == paths[j + 1];
        }
      }
      if paths[0] in w.disk {
        var w1 := w.Removed(paths[0]);
        RemoveEachOrder(w1, rest, locked);
        assert paths[0] !in rest;
        RemovalsFrame(w.disk, paths[0], rest);
        var s := RemoveEach(w1, rest, locked);
        assert s.world.log == w.log + [Remove(paths[0])] + NewCalls(w1, s.world);
      } else {
        RemoveEachOrder(w, rest, locked);
      }
    }
  }

  /**
   * A removal that raises ends the loop: when `paths[i]` is the first existing
   * path in `locked`, the result is false, the paths before it that existed
   * are gone, and every other file, `paths[i]` and the later paths included,
   * keeps its content.
   */
  lemma {:induction false} RemoveEachStops(w: World, paths: seq<Path>, locked: set<Path>, i: nat)
    requires i < |paths| && paths[i] in w.disk && paths[i] in locked
    requires forall k :: 0 <= k < i ==> paths[k] !in w.disk || paths[k] !in locked
    ensures var s := RemoveEach(w, paths, locked);
            && !s.result
            && (forall p :: p in s.world.disk <==> p in w.disk && p !in paths[..i])
            && forall p :: p in s.world.disk ==> s.world.disk[p] == w.disk[p]
    decreases i
  {
    if i > 0 {
      var rest := paths[1..];
      assert paths[..i] == [paths[0]] + rest[..i - 1];
      assert forall k :: 0 <= k < i - 1 ==> rest[k] == paths[k + 1];
      if paths[0] !in w.disk {
        RemoveEachStops(w, rest, locked, i - 1);
      } else {
        assert paths[0] != paths[i];
        RemoveEachStops(w.Removed(paths[0]), rest, locked, i - 1);
      }
    }
  }

  /**
   * `on_delete_config(confirmed)`: nothing unless confirmed; then deactivate
   * and ignore its answer, and remove token, identity and config in that
   * order. Any exception, from the deactivation or a removal, gives the
   * error answer.
   */
  function DeleteConfigStep(w: World, lay: Layout, reg: nat -> QueryReply, locked: set<Path>, confirmed: bool, cli: Cli)
    : (s: Step<Option<Answer>>)
  {
    if !confirmed then Step(w, None)
    else
      var d := DeactivateStep(w, reg, cli);
      if d.result.Raised? then Step(d.world, Some(Answer(false, DeleteErrorMessage)))
      else
        var r := RemoveEach(d.world, [lay.token, lay.uuid, lay.config], locked);
        Step(r.world, Some(if r.result then Answer(true, DeletedMessage) else Answer(false, DeleteErrorMessage)))
  }

  /**
   * Unconfirmed, nothing happens. Confirmed, the answer is "Configuration
   * Deleted" exactly when the deactivation did not raise and no existing
   * artifact resisted removal, whatever the deactivation answered; then all
   * three files are gone and nothing else on disk changed. On the error
   * answer a file that resisted is still there (ui.py:331-347).
   */
  lemma DeleteOutcome(w: World, lay: Layout, reg: nat -> QueryReply, locked: set<Path>, confirmed: bool, cli: Cli)
    ensures !confirmed ==> DeleteConfigStep(w, lay, reg, locked, confirmed, cli) == Step(w, None)
    ensures var s := DeleteConfigStep(w, lay, reg, locked, confirmed, cli);
            confirmed ==>
              && (s.result == Some(Answer(true, DeletedMessage)) <==>
                    cli.uninstall.Exited? && forall p :: lay.Holds(p) && p in w.disk ==> p !in locked)
              && (s.result != Some(Answer(true, DeletedMessage)) ==> s.result == Some(Answer(false, DeleteErrorMessage)))
              && (s.result == Some(Answer(true, DeletedMessage)) ==> forall p :: lay.Holds(p) ==> p !in s.world.disk)
              && (cli.uninstall.Exited? && s.result != Some(Answer(true, DeletedMessage)) ==>
                    exists p :: lay.Holds(p) && p in locked && p in s.world.disk)
              && (cli.uninstall.LaunchFailed? ==> s.world.disk == w.disk)
              && forall p :: !lay.Holds(p) ==> Same(w.disk, s.world.disk, p)
    ensures confirmed && cli.uninstall.LaunchFailed? ==>
              DeleteConfigStep(w, lay, reg, locked, confirmed, cli) == Step(w, Some(Answer(false, DeleteErrorMessage)))
  {
    if confirmed && cli.uninstall.Exited? {
      var paths := [lay.token, lay.uuid, lay.config];
      assert forall p :: p in paths <==> lay.Holds(p);
    }
  }

  /** With three distinct, unlocked paths the existing files are removed token first, then identity, then config (ui.py:336-341). */
  lemma DeleteOrder(w: World, lay: Layout, reg: nat -> QueryReply, locked: set<Path>, cli: Cli)
    requires lay.Distinct() && cli.uninstall.Exited?
    requires lay.token !in locked && lay.uuid !in locked && lay.config !in locked
    ensures var d := DeactivateStep(w, reg, cli);
            var s := DeleteConfigStep(w, lay, reg, locked, true, cli);
            && s.result == Some(Answer(true, DeletedMessage))
            && NewCalls(w, s.world) == NewCalls(w, d.world) + Removals(w.disk, [lay.token, lay.uuid, lay.config])
  {
    var d := DeactivateStep(w, reg, cli);
    var paths := [lay.token, lay.uuid, lay.config];
    assert forall i, j :: 0 <= i < j < |paths| ==> paths[i] != paths[j];
    RemoveEachOrder(d.world, paths, locked);
    var s := RemoveEach(d.world, paths, locked);
    assert s.world.log == w.log + NewCalls(w, d.world) + NewCalls(d.world, s.world);
  }

  /**
   * A file that resists removal stops the deletion there: with the token
   * locked the identity and config stay, with the identity locked the config
   * stays; the files before it are gone and the answer is the error
   * (ui.py:336-347).
   */
  lemma DeleteStopsAtLocked(w: World, lay: Layout, reg: nat -> QueryReply, locked: set<Path>, cli: Cli, i: nat)
    requires cli.uninstall.Exited?
    requires var paths := [lay.token, lay.uuid, lay.config];
             && i < 3 && paths[i] in w.disk && paths[i] in locked
             && forall k :: 0 <= k < i ==> paths[k] !in w.disk || paths[k] !in locked
    ensures var s := DeleteConfigStep(w, lay, reg, locked, true, cli);
            var paths := [lay.token, lay.uuid, lay.config];
            && s.result == Some(Answer(false, DeleteErrorMessage))
            && (forall p :: p in s.world.disk <==> p in w.disk && p !in paths[..i])
            && forall p :: p in s.world.disk ==> s.world.disk[p] == w.disk[p]
  {
    var d := DeactivateStep(w, reg, cli);
    RemoveEachStops(d.world, [lay.token, lay.uuid, lay.config], locked, i);
  }

  /** `on_delete_config` on the live host, with the confirmation dialog's answer as `confirmed`. */
  method OnDeleteConfig(h: Host, lay: Layout, confirmed: bool, cli: Cli) returns (r: Option<Answer>)
    modifies h
    ensures Step(h.State(), r) == DeleteConfigStep(old(h.State()), lay, h.registry, h.locked, confirmed, cli)
  {
    if !confirmed {
      return None;
    }
    var deactivated := DeactivateTunnel(h, cli);
    if deactivated.Raised? {
      return Some(Answer(false, DeleteErrorMessage));
    }
    ghost var paths := [lay.token, lay.uuid, lay.config];
    assert paths[1..] == [lay.uuid, lay.config] && paths[1..][1..] == [lay.config] && paths[1..][1..][1..] == [];
    ghost var w0 := h.State();
    if lay.token in h.disk {
      var removed := h.RemoveFile(lay.token);
      if !removed {
        return Some(Answer(false, DeleteErrorMessage));
      }
    }
    assert RemoveEach(w0, paths, h.locked) == RemoveEach(h.State(), [lay.uuid, lay.config], h.locked);
    ghost var w1 := h.State();
    if lay.uuid in h.disk {
      var removed := h.RemoveFile(lay.uuid);
      if !removed {
        return Some(Answer(false, DeleteErrorMessage));
      }
    }
    assert RemoveEach(w1, [lay.uuid, lay.config], h.locked) == RemoveEach(h.State(), [lay.config], h.locked);
    ghost var w2 := h.State();
    if lay.config in h.disk {
      var removed := h.RemoveFile(lay.config);
      if !removed {
        return Some(Answer(false, DeleteErrorMessage));
      }
    }
    assert RemoveEach(w2, [lay.config], h.locked) == Step(h.State(), true);
    return Some(Answer(true, DeletedMessage));
  }
}
