# AmpliFi Teleport for Desktop — tunnel lifecycle, in Dafny

The application connects a Windows desktop to an AmpliFi router's Teleport VPN
through the WireGuard client. Its core is a small sequential state machine.
It keeps three files in a per-user folder:

- a device identity (`teleport_uuid`);
- a device token (`teleport_token_0`);
- a WireGuard config (`teleport.conf`).

It drives one Windows service, `WireGuardTunnel$teleport`, through
`wireguard.exe` and `sc query`. Four lifecycle functions act on it:

- `generate_config` trades a PIN for a token and fetches the tunnel config;
- `activate_tunnel` reinstalls the service;
- `deactivate_tunnel` uninstalls it and polls until it stops;
- `is_tunnel_active` reads the service status.

The menu and window actions of `ui.py` compose these four: Connect, Refresh,
Disconnect and Delete, plus the PIN dialog and the button choice of the
options window.

The model:

- `Env` is the machine, modelled both as a value (`World`) and as a class
  (`Host`). A `World` holds:
  - file contents by path;
  - whether the service is installed;
  - a count of status queries;
  - the ordered log of every external action.

  The `teleport` module's three network calls, the two `wireguard.exe` runs and
  the `sc query` answers are recorded replies passed in as parameters (`Backend`,
  `Cli`, the host's `registry`).
- `Tunnel` (tunnel.py) and `Ui` (ui.py) give each operation in two forms:
  - a function `...Step` from one `World` to the next, which the lemmas are
    about;
  - an imperative method on `Host` that performs the same steps one after
    another and is proved to end in the state the function gives.

  The three artifact paths are a `Layout` parameter.
- `TrayApp` (tray_app.py) is the older copy run on its own folder
  `AmpliFiTeleportForDesktop`, with its `on_disconnect` as written.
- `TeleportSetup` (teleportSetup.py) is the copy that takes its paths from a
  list by position and never defines `WG_EXE`.
- `HiddenImports` (generate_hidden_imports.py) extracts the package names
  from requirement lines.
- `Text` and `Config` hold the Python string operations the code relies on
  (`strip`, `lower`, `in`, `split(sep)[0]`) and the constants and
  `os.path.join` of config.py.

The deactivation loop adds the float 0.8 to `elapsed` while `elapsed < 8.0`.
In binary floating point ten additions give 7.999999999999999, so the status is
read at most 11 times, not 10 (`Tunnel.PollChecks`).

## Model

| member | source | states |
|---|---|---|
| `Text.Strip` | tunnel.py:15 | `str.strip()`: the result is the slice of the input between its leading and trailing whitespace, neither end of it is whitespace, and everything cut off is whitespace |
| `Text.StripIdempotent` | tunnel.py:27 | stripping twice is stripping once |
| `Text.StripPadded` | generate_hidden_imports.py:5 | whitespace on both sides of a text with non-blank ends is exactly what `strip()` removes |
| `Text.Lower` | tunnel.py:77 | `str.lower()` keeps the length and maps each character on its own (ASCII capitals to small letters) |
| `Text.ContainsLower` | tunnel.py:63 | when `sub in s`, also `sub.lower() in s.lower()`: an occurrence survives lower-casing |
| `Text.Before` | generate_hidden_imports.py:5 | `s.split(sep)[0]` is a prefix of `s` without `sep`; it is all of `s` exactly when `sep` does not occur, and otherwise `sep` follows it |
| `Text.BeforeFirst` | generate_hidden_imports.py:5 | no occurrence of `sep` starts inside `s.split(sep)[0]`: the cut is at the first occurrence |
| `Text.BeforeAt` | generate_hidden_imports.py:5 | when `sep` occurs at `k` and its first character does not occur earlier, `s.split(sep)[0]` is `s[:k]` |
| `Config.FolderLayout` | config.py:10-14 | the three artifact paths of a folder under %APPDATA% are pairwise distinct |
| `Config.FoldersDisjoint` | tray_app.py:20 | a file of `%APPDATA%\F` is never a file of `%APPDATA%\F` + suffix |
| `Env.Host.WriteFile` | tunnel.py:18-19 | writing a file sets its content and logs the write; nothing else changes |
| `Env.Host.RemoveFile` | ui.py:336-341 | `os.remove` deletes an unlocked file and logs it; a locked file raises and nothing changes |
| `Env.Host.RunCli` | tunnel.py:41-42 | a `wireguard.exe` run that exits 0 leaves the service installed (install) or gone (uninstall); any other code leaves it as it was; the run is logged |
| `Env.Host.QueryService` | tunnel.py:71-76 | an `sc query` receives the registry's next answer and counts one query |
| `Tunnel.FetchStep` | tunnel.py:28-30 | fetching the config touches no file outside the three artifacts, no service and no status query |
| `Tunnel.ExchangeStep` | tunnel.py:20-22 | the token exchange and the fetch after it touch only the artifacts |
| `Tunnel.GenerateConfigStep` | tunnel.py:9-34 | `generate_config` touches only the three artifact files: never the service, never the status |
| `Tunnel.GenerateIdentityFirst` | tunnel.py:12-20 | with a PIN, every token exchange uses that PIN and either the stripped existing identity or a hint already written to the identity file in the same run |
| `Tunnel.ExchangeTokenFirst` | tunnel.py:20 | an exchange makes exactly one `get_device_token` call, as its first action |
| `Tunnel.FetchTrace` | tunnel.py:28-30 | the fetch's actions are `connect_device`, then the config write only when it returned, with that text |
| `Tunnel.ExchangeTrace` | tunnel.py:20-30 | the exchange's actions are the token call, the token write only when it returned, then the fetch |
| `Tunnel.GenerateTrace` | tunnel.py:11-30 | the ordered actions of `generate_config` for each branch: identity reuse or creation, exchange or stored token, fetch |
| `Tunnel.GenerateRunsNoCli` | tunnel.py:9-34 | `generate_config` never runs the WireGuard CLI and never removes a file |
| `Tunnel.FetchBackendOrWrites` | tunnel.py:28-30 | a fetch makes only `teleport` calls and file writes |
| `Tunnel.ExchangeBackendOrWrites` | tunnel.py:20-30 | an exchange makes only `teleport` calls and file writes |
| `Tunnel.GenerateWritesFollowCalls` | tunnel.py:20-30 | the token file is written only right after `get_device_token` returned that text, and the config file only right after `connect_device` returned it |
| `Tunnel.GenerateKeepsIdentity` | tunnel.py:12-27 | an existing identity file is never rewritten; without a PIN neither identity nor token changes |
| `Tunnel.GenerateNeedsTokenOrPin` | tunnel.py:23-25 | without a PIN and without a token file the answer is "No previous token found. Please enter a new PIN." and nothing is called or written |
| `Tunnel.GenerateConfigResult` | tunnel.py:28-34 | on success the config file holds exactly the returned text, which `connect_device` gave for a token used in the run; on failure the config file is as it was |
| `Tunnel.GenerateExchangeFailure` | tunnel.py:20-34 | a failed exchange answers `(False, str(e))`, leaves token and config files as they were, and never calls `connect_device` |
| `Tunnel.GenerateConfig` | tunnel.py:9-34 | the method ends in the state and with the answer `GenerateConfigStep` gives |
| `Tunnel.ActivateStep` | tunnel.py:36-45 | activation changes no file and makes no status query |
| `Tunnel.ActivateNeedsConfig` | tunnel.py:38-39 | without a config file the answer is "No config found. Generate one first." and nothing runs |
| `Tunnel.ActivateOutcome` | tunnel.py:40-45 | with a config file the uninstall's result does not matter: "Tunnel activated!" exactly when the install exits 0 (the service is then installed), and "Activation failed: " plus stderr on any other code |
| `Tunnel.ActivateTwice` | tunnel.py:36-45 | activating again after a successful activation gives the same answer and leaves the service installed |
| `Tunnel.ActivateTunnel` | tunnel.py:36-45 | the method ends where `ActivateStep` says; a CLI that cannot start raises out of it |
| `Tunnel.StatusStep` | tunnel.py:67-97 | reading the status changes no file, no service and no log |
| `Tunnel.StatusAnswer` | tunnel.py:77-97 | for any reply: active exactly when a query was made and answered exit code 0 with "running" in the lower-cased output; a failed query or a non-zero code reads inactive; one query when `retries > 0`, none otherwise |
| `Tunnel.StatusReading` | tunnel.py:77-84 | active exactly for exit code 0 with "running" in any letter case, and only when `retries > 0`; at most one query whatever the retry budget |
| `Tunnel.IsTunnelActive` | tunnel.py:67-97 | the attempt loop ends after its first attempt, in the state and with the answer `StatusStep` gives |
| `Tunnel.FirstIdle` | tunnel.py:55-57 | the first of `n` readings that is not running, with every earlier reading running; `n` when none is |
| `Tunnel.FirstIdleIs` | tunnel.py:55-57 | an index with those three properties is `FirstIdle` |
| `Tunnel.DeactivateStep` | tunnel.py:47-65 | deactivation changes no file and only appends to the log |
| `Tunnel.DeactivateFailure` | tunnel.py:62-65 | a failed uninstall never polls: "Tunnel not active." when stderr contains "not found" ignoring case, otherwise "Deactivation failed: " plus stderr |
| `Tunnel.DeactivateNotFoundAnyCase` | tunnel.py:63 | "not found" written in any letter case gives "Tunnel not active." |
| `Tunnel.DeactivateBounded` | tunnel.py:50-61 | after a successful uninstall the answer is success, the service is gone, between 1 and 11 queries are made, and the message is "Tunnel deactivated!" exactly when one of those readings was not running (otherwise the "requested" message) |
| `Tunnel.PollUntilIdle` | tunnel.py:52-59 | the polling loop stops at the first reading that is not running, or after 11 readings, and changes nothing else |
| `Tunnel.DeactivateTunnel` | tunnel.py:47-65 | the method ends where `DeactivateStep` says |
| `Ui.PinDialog` | ui.py:69-75 | a PIN comes out of the dialog only with five characters and no whitespace at either end |
| `Ui.PinDialogSubmit` | ui.py:69-75 | Submit returns the field exactly when the stripped field has five characters; otherwise the dialog stays open |
| `Ui.PinDialogRejectsLongEdit` | ui.py:46-49 | a keystroke that would make the field longer than five characters is refused; others replace the field |
| `Ui.Buttons` | ui.py:227-264 | exactly one of Connect (inactive) and Disconnect (active); Delete exactly when some artifact exists; Quit last |
| `Ui.RefreshButtons` | ui.py:213-264 | one status reading with four retries decides the buttons |
| `Ui.ShowPinNoPin` | ui.py:278-280 | no PIN, or a blank one: "No PIN entered." and nothing changes |
| `Ui.ShowPinGenerateFailure` | ui.py:282-284 | a failed generation is answered with its text, and no CLI runs |
| `Ui.ShowPinSuccess` | ui.py:282-295 | a generated config answers "Config generated successfully" without activation and "Tunnel connected successfully" when activation succeeds; success means a config holding the fetched text, and with activation the install ran last and the service is installed; a failed activation is answered with its message and an exception propagates |
| `Ui.ShowPinDialog` | ui.py:277-295 | the method ends where `ShowPinDialogStep` says, given the dialog's result |
| `Ui.RefreshNeedsToken` | ui.py:298-300 | without a token file the answer is `None` and nothing changes |
| `Ui.RefreshOutcome` | ui.py:301-309 | a failed fetch is returned as it came and nothing runs; after a fetch the config exists and activation's answer is returned unchanged |
| `Ui.OnRefreshConfig` | ui.py:297-309 | the method ends where `RefreshConfigStep` says |
| `Ui.ConnectFromScratch` | ui.py:311-316 | with no token file, a PIN, a backend answering every call and an install exiting 0, the identity, token and config files exist, the config holds what the backend gave for the stored token, the service is installed and the answer is "Successfully Created New Connection" |
| `Ui.ConnectOutcome` | ui.py:311-320 | without a token file the answer is "Successfully Created New Connection" unless the PIN flow raised, whatever it returned; with one it is the refresh and never `None` |
| `Ui.OnConnect` | ui.py:311-320 | the method ends where `ConnectStep` says |
| `Ui.DisconnectOutcome` | ui.py:322-329 | an inactive reading answers "No Teleport Tunnel is active" after one query and runs nothing; an active one answers what deactivation answers |
| `Ui.OnDisconnect` | ui.py:322-329 | the method ends where `DisconnectStep` says |
| `Ui.RemoveEach` | ui.py:336-341 | the removals succeed exactly when no existing path is locked, after which none remains; otherwise a locked one remains; other files are untouched |
| `Ui.RemovalsFrame` | ui.py:336-341 | removing a file outside the list does not change which of the list's files are removed |
| `Ui.RemoveEachStops` | ui.py:336-347 | a removal that raises ends the loop: the result is false, the existing paths before the locked one are gone, and every other file, the later paths included, keeps its content |
| `Ui.RemoveEachOrder` | ui.py:336-341 | with distinct unlocked paths exactly the existing ones are removed, in list order |
| `Ui.DeleteOutcome` | ui.py:331-347 | unconfirmed, nothing happens; confirmed, "Configuration Deleted" exactly when deactivation did not raise and no existing artifact resisted, whatever deactivation answered; then all three files are gone; no other file changes; a deactivation that raises changes no file and gives the error answer |
| `Ui.DeleteOrder` | ui.py:335-341 | after the deactivation's actions, the existing files are removed token first, then identity, then config |
| `Ui.DeleteStopsAtLocked` | ui.py:336-347 | a locked token keeps the identity and config, a locked identity keeps the config; files before the locked one are gone and the answer is the error |
| `Ui.OnDeleteConfig` | ui.py:331-347 | the method ends where `DeleteConfigStep` says |
| `TrayApp.FoldersApart` | tray_app.py:20-24 | no artifact of this copy is an artifact of the live application |
| `TrayApp.GenerateSparesLiveFiles` | tray_app.py:54-79 | this copy's `generate_config` never changes a live application file |
| `TrayApp.GenerateConfig` | tray_app.py:54-79 | `generate_config` of this copy is tunnel.py's on its own folder |
| `TrayApp.ActivateTunnel` | tray_app.py:81-92 | `activate_tunnel` of this copy is tunnel.py's on its own folder |
| `TrayApp.DeactivateTunnel` | tray_app.py:94-113 | `deactivate_tunnel` of this copy is tunnel.py's |
| `TrayApp.IsTunnelActive` | tray_app.py:115-146 | `is_tunnel_active` of this copy is tunnel.py's |
| `TrayApp.ShowPinDialog` | tray_app.py:343-364 | `show_pin_dialog` of this copy is ui.py's on its own folder |
| `TrayApp.OnRefreshConfig` | tray_app.py:366-378 | `on_refresh_config` of this copy is ui.py's on its own folder |
| `TrayApp.OnConnect` | tray_app.py:380-389 | `on_connect` of this copy is ui.py's on its own folder |
| `TrayApp.OnDisconnect` | tray_app.py:391-399 | as written: always deactivates, without reading the status |
| `TrayApp.DisconnectIgnoresStatus` | tray_app.py:393-399 | this copy never answers "No Teleport Tunnel is active" and runs the uninstall first; the intended version runs nothing on an inactive reading |
| `TrayApp.DisconnectCounterexample` | tray_app.py:393 | with no tunnel service (status query exits 1060, uninstall fails with "tunnel not found"), the intended version answers "No Teleport Tunnel is active" and runs nothing, while this copy runs the uninstall and answers "Tunnel not active." |
| `TrayApp.OnDeleteConfig` | tray_app.py:401-416 | `on_delete_config` of this copy is ui.py's on its own folder |
| `TeleportSetup.GeneratePositions` | teleportSetup.py:19-48 | fewer than three paths raise `IndexError` and change nothing; otherwise only the first three paths can change, and on success `configs[0]` holds the config text and, with a PIN, `configs[1]` a token `get_device_token` returned |
| `TeleportSetup.TokenFromExchange` | teleportSetup.py:35-37 | after a successful run with a PIN the token file holds what `get_device_token` returned |
| `TeleportSetup.ActivateNeverRuns` | teleportSetup.py:50-65 | this `activate_tunnel` never runs anything and never succeeds; with three paths it raises `NameError` exactly when the config file exists |
| `TeleportSetup.ActivateCounterexample` | teleportSetup.py:60 | where tunnel.py activates successfully, this copy raises `NameError` |
| `TeleportSetup.GenerateConfig` | teleportSetup.py:19-48 | the method ends where `GenerateConfigStep` says |
| `TeleportSetup.ActivateTunnel` | teleportSetup.py:50-65 | the method answers what `ActivateStep` says and changes nothing |
| `TeleportSetup.DeactivateTunnel` | teleportSetup.py:67-86 | always `NameError`, nothing changes |
| `TeleportSetup.IsTunnelActive` | teleportSetup.py:88-119 | `is_tunnel_active` of this copy is tunnel.py's |
| `HiddenImports.PackageName` | generate_hidden_imports.py:5 | the name is a prefix of the stripped line and contains none of "==", ">=", "<=" |
| `HiddenImports.NameEndsAtOperator` | generate_hidden_imports.py:5 | the name is the whole stripped line, or one of "==", ">=", "<=" follows it there |
| `HiddenImports.Packages` | generate_hidden_imports.py:5 | at most one name per line |
| `HiddenImports.PackagesFromKeptLines` | generate_hidden_imports.py:5 | every name is the name of a kept line |
| `HiddenImports.PackagesAppend` | generate_hidden_imports.py:5 | names keep the order of their lines: the names of `a + b` are those of `a` then those of `b` |
| `HiddenImports.PackagesOfLine` | generate_hidden_imports.py:5 | one line gives its name exactly when it is kept |
| `HiddenImports.HiddenImportArgs` | generate_hidden_imports.py:7-8 | one argument per name, in order, each "--hidden-import " followed by the name |
| `HiddenImports.NameOfBareLine` | generate_hidden_imports.py:5 | a line without operator characters gives its stripped text |
| `HiddenImports.NameBeforePin` | generate_hidden_imports.py:5 | the name is everything before the first "==", spaces included |
| `HiddenImports.NameBeforeBound` | generate_hidden_imports.py:5 | a bound "name>=…" or "name<=…" not followed by another '=' gives the name before the operator |
| `HiddenImports.IndentedCommentKept` | generate_hidden_imports.py:5 | an indented comment line is kept and its name is the comment text |
| `HiddenImports.SpacedPinKeepsSpace` | generate_hidden_imports.py:5 | a pin written "pkg == 1.0" gives "pkg " with its trailing space |

## Findings

| source | as written | input that shows it | evidently intended | confidence | as-written member | corrected member |
|---|---|---|---|---|---|---|
| tray_app.py:393 | `not is_tunnel_active` negates the function object, which is always truthy, so the "no tunnel" branch is dead and the tunnel is always deactivated | no tunnel service: `sc query` exits 1060 and the uninstall fails with "tunnel not found"; the copy runs the uninstall and answers "Tunnel not active." | call `is_tunnel_active()` as ui.py:323 does, and answer "No Teleport Tunnel is active" without running anything | high; not executed | `TrayApp.DisconnectCounterexample` | `Ui.DisconnectOutcome` |
| teleportSetup.py:60 | `WG_EXE` is neither defined nor imported, so `activate_tunnel` raises `NameError` (not caught by the `CalledProcessError` handler) once the config exists, and `deactivate_tunnel` always raises | three paths with an existing config file and an install that would succeed | run the CLI with the WireGuard path of config.py:17, as tunnel.py does | high; not executed | `TeleportSetup.ActivateCounterexample` | `Tunnel.ActivateOutcome` |

## Left out

- The GUI is not modelled: windows, widgets, centring, the main loop, toasts, message boxes and logging. The PIN dialog is a sequence of user events, and the confirmation dialog's answer is a boolean.
- The tray app's own PIN dialog (tray_app.py:148-236), called by its `show_pin_dialog`, behaves like ui.py's and is modelled by `Ui.PinDialog`. Only the code after its `return` is left out: a second `submit` that upper-cases the PIN can never run.
- `action_and_refresh` (ui.py:266-271) is left out. It only sleeps and then calls one of the modelled actions and `refresh_buttons`.
- `time.sleep`, the 5-second `sc query` timeout and the float `elapsed` are left out. The loop is a counter of 11 readings (`Tunnel.PollChecks`).
- Failures of the file operations other than `os.remove` are not modelled. An unreadable identity or token file, or a write that raises, is outside the model. `generate_config` would turn them into `(False, str(e))`.
- Only the text of a `teleport` module exception is modelled (`Reply.Fails`), not its type.
- `e.stderr.decode()` is not modelled: stderr is given as decoded text.
- `Text.Lower` maps only the ASCII capitals. Python's `str.lower()` also maps other Unicode letters.
- `Config.Join` does not model UNC paths, nor an absolute second argument to `os.path.join`. An unset `APPDATA`, which makes config.py raise on import, is not modelled either.
- `Env.Host.RunCli` does not model the case where `wireguard.exe` starts but `subprocess.run` raises something else. A CLI that cannot start is `LaunchFailed` and propagates as an `OSError`.
- `Env.Host.QueryService` folds every `sc query` exception into one `QueryFailed` reply. Both of the source's handlers answer `False`, so they need not be told apart.
- `TeleportSetup.GenerateConfigStep` does not model entries of `configs` that are `None`. `os.path.exists(None)` raises `TypeError`; the model takes three paths or raises `IndexError`.
- The reading of requirements.txt and the `print` loop of generate_hidden_imports.py are left out. The lines come in as a sequence, and the printed lines are `HiddenImports.HiddenImportArgs`.
- userCrudOps.py, userInterfaces.py and main.py are not part of this model. Nor is `get_icon_path` of config.py.
- The model does not cover Windows administrator elevation, the tray icon, or the unused `threading` and `asyncio` imports.
