# Starward launcher pages: game lifecycle model

Starward is a Windows launcher for miHoYo games. This project is a Dafny model of the game-lifecycle
logic in its launcher pages:

- **Action flags.** Which of *start*, *download*, *update*, *pre-download* and *repair* the page
  offers. The page derives these from the local, current and pre-release `System.Version` of the
  game and from the game "biz" (game plus region).
- **Game-process tracking.** The page tracks a running game either through the process's exit
  event or, when an elevated game denies that subscription, through a one-second polling timer. It
  also decides when the start button is usable again.
- **Elevated worker dispatch.**
  - A single-instance check through the OS application-instance registry, keyed
    `download_game_{biz}`.
  - The command line handed to the elevated copy of the launcher:
    `{download|repair} --biz {biz} --loc "{path}" --lang {n} `, with a trailing space.
  - The choice of executable for that copy: the process's own file, or `Starward.exe` in the base
    directory.
- **Small UI state.**
  - The mute toggle and the volume icon.
  - Frame-rate clamps: [60, 320] on the per-game page and [60, 120] on the older page.
  - The per-server account list, the selected logged-in account and the account switch.
  - The banner carousel.
  - The main page's game selector and its change button.

Modules follow the program's structure:

| module | file | what it models |
|---|---|---|
| `Wrappers` | wrappers.dfy | `Option` |
| `GameBizes` | game_biz.dfy | the `GameBiz` enum, its printed name and `Enum.TryParse` |
| `Versions` | versions.dfy | `System.Version`, `CompareTo` and the nullable operators |
| `Eligibility` | eligibility.dfy | the five `Is*Enable` properties |
| `Decimal` | decimal.dfy | printing an `int` in decimal, as string interpolation does |
| `WorkerLaunch` | worker_launch.dfy | the worker command line and the executable path |
| `InstanceGate` | instance_gate.dfy | `CheckRedirectInstanceAsync` |
| `Dispatch` | dispatch.dfy | `DownloadGameAsync`, `PreDownloadGameAsync`, `RepairGameAsync` |
| `Accounts` | accounts.dfy | saved game accounts, the per-server filter, the login switch |
| `UiRules` | ui_rules.dfy | clamps, the volume glyph and the carousel step (C#'s truncating `%`) |
| `Carousel` | carousel.dfy | the pips pager the banner timer advances |
| `LauncherPages` | launcher_page.dfy | `Starward/Pages/LauncherPage.xaml.cs` as a class with its fields |
| `UiLauncherPage` | ui_launcher_page.dfy | `Starward/UI/LauncherPage.xaml.cs` |
| `UiMainPage` | ui_main_page.dfy | `Starward/UI/MainPage.xaml.cs` |

The pages change their fields step by step, so each page is a `class` with those fields. Each
`[ObservableProperty]` setter becomes a method that runs the change handler only when the value
changes. For `Process` and `GameAccount` values, "changes" means reference inequality. The pure
expressions are functions in the other modules, with lemmas about them:
- the `Is*Enable` properties;
- the volume icon;
- the command-line builder;
- the account filter.

The OS process is a small class. Its `hasExited` flag is set by the OS (`Exit`), and its
`exitEventsAllowed` constant is false for an elevated game that refuses `EnableRaisingEvents` with
Win32 error 5. The page tracks it and disposes it.

The page class keeps the following invariant (`LauncherPage.Valid`):
- A tracked process is not disposed.
- A tracked process that allows exit events has its exit event subscribed.
- The timer runs only while a tracked process refuses exit events.
- The button text agrees with `CanStartGame`.
- The remembered unmuted volume is positive.
- The cloud game has no current and no pre-release version.
- Once the polling timer exists, a tracked process is always watched, by its exit event or by the
  running timer (`Watched`). Every operation keeps this, with one exception. A process can be
  tracked before the first refresh, which creates the timer. If that refresh's process lookup then
  throws, the process stays tracked while the new timer is stopped, and nothing watches it
  (`LauncherPages.UnwatchedAfterFailedRefresh`).

The page keeps working in that state, so the page's operations require only the other parts of the
invariant (`Sound` and `Live`). Each operation states exactly when `Watched` holds afterwards.

Two behaviours of the code differ from what a reader of the feature might expect; the model follows the code:

- With a local version but no current version, the code enables *start* and disables *update*. The
  nullable `>=` puts null below every version. The cloud game depends on this, because it is only
  ever given a local version. A fail-safe reading that disables everything does not match the code.
- `CheckRedirectInstanceAsync` unregisters the key immediately when this instance is the holder. The
  launcher page therefore never keeps the key, so a second launcher page passes the check too
  (`InstanceGate.ClaimNotHeld`, which covers two launcher pages with no other holder). A key that
  another process has registered, such as a running elevated worker, still makes the check
  redirect to that process (`InstanceGate.CheckRedirectInstance`).

## Model

| member | source | states |
|---|---|---|
| `Versions.Compare` | Starward/Pages/LauncherPage.xaml.cs:347-353 | `CompareTo` returns -1, 0 or 1. It is 0 exactly for equal versions and negative exactly when the first version is lexicographically before the second. |
| `Versions.CompareAntisymmetric` | Starward/Pages/LauncherPage.xaml.cs:347-353 | Swapping the operands of `CompareTo` negates the result. |
| `Versions.CompareTransitive` | Starward/Pages/LauncherPage.xaml.cs:347-353 | `CompareTo(a,b) <= 0` and `CompareTo(b,c) <= 0` give `CompareTo(a,c) <= 0`. |
| `Versions.CompareToNullable` | Starward/Pages/LauncherPage.xaml.cs:347-353 | `CompareTo(null)` is 1. The result is 0 exactly for the same version, and negative exactly when the other version is present and lexicographically after. |
| `Versions.Less` | Starward/Pages/LauncherPage.xaml.cs:347-353 | `a < b` holds iff `b` is present and `a` is null or lexicographically before it. |
| `Versions.LessOrEqual` | Starward/Pages/LauncherPage.xaml.cs:347-353 | `a <= b` holds iff `a` is null, or `b` is present and not lexicographically before `a`. |
| `Versions.Greater` | Starward/Pages/LauncherPage.xaml.cs:353 | `a > b` holds iff `a` is present and `b` is null or lexicographically before it. |
| `Versions.GreaterOrEqual` | Starward/Pages/LauncherPage.xaml.cs:347 | `a >= b` holds iff `b` is null, or `a` is present and not lexicographically before `b`. |
| `Versions.NullableOrderTotal` | Starward/Pages/LauncherPage.xaml.cs:347-353 | Of `a < b`, `a == b` and `b < a` exactly one holds. `<=` is `<` or equality, `>=` is not-`<`, and `>` is not-`<=`. |
| `Versions.LessTransitive` | Starward/Pages/LauncherPage.xaml.cs:347-353 | The nullable `<` is transitive, so together with `NullableOrderTotal` it is a strict total order on versions-or-null. |
| `Versions.NullIsLeast` | Starward/Pages/LauncherPage.xaml.cs:347-353 | Null is below every version: `v >= null` holds, `v < null` does not, and `null <= null` holds. |
| `Eligibility.Derive` | Starward/Pages/LauncherPage.xaml.cs:347-359 | Download iff there is no local version. Start iff there is a local version that is not lexicographically before the current one, or no current version. Update iff the local version is before the current one. Pre-download and repair both exclude download, and repair needs a repairable biz. |
| `Eligibility.ExactlyOneAction` | Starward/Pages/LauncherPage.xaml.cs:347-353 | For every combination of versions, exactly one of download, update and start is enabled. |
| `Eligibility.NoCurrentVersionStarts` | Starward/Pages/LauncherPage.xaml.cs:347-353 | A local version with no current version gives start enabled and update and download disabled. |
| `Eligibility.PreDownloadIffBoth` | Starward/Pages/LauncherPage.xaml.cs:356 | Pre-download is enabled iff both the local and the pre-release version are present. |
| `Eligibility.RepairIffRepairableAndInstalled` | Starward/Pages/LauncherPage.xaml.cs:359 | Repair is enabled iff the biz is hk4e_cn or hk4e_global and a local version is present. |
| `Eligibility.CloudInstallationStarts` | Starward/Pages/LauncherPage.xaml.cs:457-464 | A cloud game given only `new Version()` as its local version offers start and nothing else. |
| `LauncherPages.LauncherPage.Flags` | Starward/Pages/LauncherPage.xaml.cs:347-359 | The page's five properties: download iff no local version, exactly one of download, update and start, pre-download iff local and pre-release versions are both present, and repair iff the biz is repairable and a local version is present. |
| `Eligibility.NotInstalledScenario` | Starward/Pages/LauncherPage.xaml.cs:347-359 | No local version offers only download. |
| `Eligibility.UpToDateWithPreReleaseScenario` | Starward/Pages/LauncherPage.xaml.cs:347-359 | Up to date with a pre-release announced offers start and pre-download. |
| `Eligibility.OutdatedScenario` | Starward/Pages/LauncherPage.xaml.cs:347-359 | An outdated hk4e_global install offers update and repair and not start. |
| `GameBizes.Name` | Starward/Pages/LauncherPage.xaml.cs:1134 | The printed enum name is non-empty, has no space, and is one of the listed names unless the member is one the model does not spell out. |
| `GameBizes.NameInjective` | Starward/Pages/LauncherPage.xaml.cs:996 | Different members print differently. |
| `GameBizes.Parse` | Starward/UI/MainPage.xaml.cs:116 | `Enum.TryParse` succeeds only on a tag whose text is the member's name, and succeeds on every listed name. |
| `GameBizes.ParseName` | Starward/UI/MainPage.xaml.cs:116 | Parsing a member's printed name gives the member back. |
| `Decimal.IntToString` | Starward/Pages/LauncherPage.xaml.cs:1134 | An `int` prints as a non-empty string with no space or quote, starting with `-` iff it is negative. |
| `Decimal.IntRoundTrip` | Starward/Pages/LauncherPage.xaml.cs:1134 | Reading the printed number back gives the number. |
| `InstanceGate.DownloadKey` | Starward/Pages/LauncherPage.xaml.cs:996 | The key is `download_game_` followed by the biz name. |
| `InstanceGate.DownloadKeyInjective` | Starward/Pages/LauncherPage.xaml.cs:996 | Different bizzes get different keys. |
| `InstanceGate.FindOrRegisterForKey` | Starward/Pages/LauncherPage.xaml.cs:996 | Returns the registered holder unchanged, or registers this instance when there is none. Afterwards the key maps to the returned instance. |
| `InstanceGate.CheckRedirectInstance` | Starward/Pages/LauncherPage.xaml.cs:994-1007 | Aborts iff another instance holds the key, and then records a redirect to it. Otherwise it removes the key and changes nothing else. |
| `InstanceGate.ClaimNotHeld` | Starward/Pages/LauncherPage.xaml.cs:1002-1006 | After one instance passes the check, a second instance checking the same biz passes too, and no registration is left behind. |
| `InstanceGate.OwnStaleRegistrationDropped` | Starward/Pages/LauncherPage.xaml.cs:1002-1006 | A registration held by this same instance does not block it and is dropped without a redirect. |
| `InstanceGate.OtherKeysUntouched` | Starward/Pages/LauncherPage.xaml.cs:996-1006 | The check never adds, removes or changes another key. |
| `WorkerLaunch.WorkerArguments` | Starward/Pages/LauncherPage.xaml.cs:1134 | The command line starts with the verb and a space and always ends in a space. |
| `WorkerLaunch.WorkerArgumentsRoundTrip` | Starward/Pages/LauncherPage.xaml.cs:1134 | Decoding the command line gives back the verb, the biz name, the install path and the language number, provided the biz name has no space and the path no double quote. |
| `WorkerLaunch.BaseDirectoryExe` | Starward/Pages/LauncherPage.xaml.cs:1128 | `Path.Combine(base, "Starward.exe")` extends the base directory with the file name. A separator sits between them when the base is non-empty, and at most one character is inserted. |
| `WorkerLaunch.ResolveWorkerExe` | Starward/Pages/LauncherPage.xaml.cs:1125-1129 | The process's own file is used when it exists. Otherwise the result is the base-directory path, whose existence is not checked. |
| `WorkerLaunch.FallbackWhenModuleMissing` | Starward/Pages/LauncherPage.xaml.cs:1125-1129 | The fallback path is chosen exactly when the module file is unknown or missing, or is that same path. |
| `Dispatch.DownloadGame` | Starward/Pages/LauncherPage.xaml.cs:1013-1143 | The cloud game opens its web page and leaves the registry alone. Otherwise the command redirects iff another instance holds the key. It starts a worker iff the folder exists, a resource is available and the dialog is confirmed, and a started worker runs from the resolved executable with the key unregistered. |
| `Dispatch.PreDownloadGame` | Starward/Pages/LauncherPage.xaml.cs:1151-1197 | A key held by another instance redirects. A finished pre-download starts a worker iff the verification dialog is confirmed. An unfinished one runs the whole download command on the registry with the key removed. A started worker runs from the resolved executable. |
| `Dispatch.RepairGame` | Starward/Pages/LauncherPage.xaml.cs:1203-1225 | Always starts a worker from the resolved executable with a `repair ` command line. No registry is involved. |
| `Dispatch.PathText` | Starward/Pages/LauncherPage.xaml.cs:1217 | Interpolating the install path prints the path itself. A null path prints as the empty string, so the command line carries `--loc ""`. |
| `Dispatch.DownloadWorkerCommand` | Starward/Pages/LauncherPage.xaml.cs:1122-1136 | A started download worker reads back `repair` iff repair mode was on, plus the biz, the chosen folder and the language. |
| `Dispatch.PreDownloadVerifiesWithDownload` | Starward/Pages/LauncherPage.xaml.cs:1171-1185 | Verifying a finished pre-download always starts a `download` worker, never a `repair` one. |
| `Dispatch.RepairWorkerCommand` | Starward/Pages/LauncherPage.xaml.cs:1206-1219 | A repair worker reads back `repair`, the biz, the install path and the language. |
| `Accounts.FilterByServer` | Starward/UI/LauncherPage.xaml.cs:87 | The result holds exactly the accounts of the given server, and is no longer than the input. |
| `Accounts.FilterByServerAppend` | Starward/UI/LauncherPage.xaml.cs:87 | Filtering distributes over concatenation, so the original order is kept. |
| `Accounts.FilterByServerKeepsMatching` | Starward/UI/LauncherPage.xaml.cs:87 | A list of one server's accounts is its own filter. |
| `Accounts.FirstLoggedIn` | Starward/UI/LauncherPage.xaml.cs:88 | `FirstOrDefault(x => x.IsLogin)` is null iff no account is logged in. Otherwise it is a logged-in account of the list with none logged in before it. |
| `Accounts.LogInOnly` | Starward/Pages/LauncherPage.xaml.cs:802-807 | After the loop and the final assignment, the selected account is logged in and every other account of the list is not. |
| `UiRules.Clamp` | Starward/Pages/LauncherPage.xaml.cs:431 | `Math.Clamp` lies within the bounds, is the identity inside them, and is the nearest in-range value to the input. |
| `UiRules.VolumeGlyph` | Starward/Pages/LauncherPage.xaml.cs:903-909 | The icon is one of the four volume glyphs, one per band. It shows no waves for a volume of at most 1, one wave for more than 1 and at most 33, two waves for more than 33 and at most 66, and three waves above 66. |
| `LauncherPages.LauncherPage.VolumeButtonIcon` | Starward/Pages/LauncherPage.xaml.cs:903-909 | The page's volume icon is the glyph of the video volume's band: muted at most 1, three waves above 66. |
| `UiRules.VolumeGlyphMonotone` | Starward/Pages/LauncherPage.xaml.cs:903-909 | A louder volume never shows a quieter glyph. |
| `UiRules.TruncatedRemainder` | Starward/Pages/LauncherPage.xaml.cs:213 | C#'s `%` is smaller in magnitude than the divisor, takes the dividend's sign, and is the identity on a dividend in range. |
| `UiRules.TruncatedRemainderCongruent` | Starward/Pages/LauncherPage.xaml.cs:213 | C#'s `%` differs from the dividend by a multiple of the divisor. With the bounds and the sign of `TruncatedRemainder`, this fixes its value. |
| `UiRules.NextPageIndex` | Starward/UI/LauncherPage.xaml.cs:185 | From any index of at least -1, the next page index is in `[0, N)` for `N > 0`. |
| `UiRules.AdvanceIsModular` | Starward/UI/LauncherPage.xaml.cs:185 | From a page in range, `k` ticks land on page `(index + k) mod N`. |
| `UiRules.FullRotation` | Starward/UI/LauncherPage.xaml.cs:185 | `N` ticks bring the pager back to the page it started on. |
| `Carousel.PipsPager.Tick` | Starward/UI/LauncherPage.xaml.cs:179-189 | With no banner list, an empty one or no pages (the `%` throws and the tick swallows it), the page index is unchanged. Otherwise, from an index in `[-1, N)`, the index moves to `(i+1) mod N`; from any index of at least -1 it lands in `[0, N)`. The per-game page's tick at Starward/Pages/LauncherPage.xaml.cs:207-217 is the same code. |
| `Carousel.PipsPager.TickRound` | Starward/UI/LauncherPage.xaml.cs:185 | Ticking as many times as there are pages, with banners, leaves the selected page where it was. |
| `LauncherPages.Process.SubscribeExit` | Starward/Pages/LauncherPage.xaml.cs:403-409 | Setting `EnableRaisingEvents` and subscribing to `Exited` fails with access denied exactly for a process that refuses exit events. Otherwise the exit event is subscribed afterwards. |
| `LauncherPages.Process.Dispose` | Starward/Pages/LauncherPage.xaml.cs:395 | Disposing marks the handle as disposed. The same call is made at Starward/Pages/LauncherPage.xaml.cs:521. |
| `LauncherPages.Process.Exit` | Starward/Pages/LauncherPage.xaml.cs:514 | Once the game quits, `HasExited` reads true. |
| `LauncherPages.LauncherPage.constructor` | Starward/Pages/LauncherPage.xaml.cs:283-287 | The page starts with no versions, no tracked process and no timer, start enabled with the "start game" text, and 100 as the remembered volume. The invariant holds. |
| `LauncherPages.LauncherPage.SetGameProcess` | Starward/Pages/LauncherPage.xaml.cs:393-412 | Assigning the same process changes nothing. A different value disposes the old process and stops a running timer. A non-null value disables start, shows "game is running", and subscribes to the exit event; if access is denied it starts the timer, when one exists. A process that allows exit events ends up subscribed. The invariant holds afterwards, and a repeated assignment keeps `Watched` as it was. |
| `LauncherPages.LauncherPage.UpdateGameState` | Starward/Pages/LauncherPage.xaml.cs:480-502 | Start is always re-enabled first. When running games are ignored, the tracked process and the timer stay. Otherwise the timer exists afterwards. If the process lookup answers, the found process is tracked and watched, and start is enabled iff no process was found. If the lookup throws, the tracked process stays and start stays enabled. `Watched` fails afterwards exactly in two cases. In the first, it failed before and the lookup threw or running games are ignored. In the second, the lookup throws, this call created the timer, and the tracked process has no exit subscription. |
| `LauncherPages.LauncherPage.CheckGameExited` | Starward/Pages/LauncherPage.xaml.cs:508-527 | With no tracked process, or a live one, nothing changes. When the tracked process has exited, it is disposed and dropped, start is re-enabled, and the timer is no longer running. `Watched` holds afterwards iff it held before or the process had exited. |
| `LauncherPages.LauncherPage.StartGame` | Starward/Pages/LauncherPage.xaml.cs:532-566 | When running games are ignored the service is asked and no page state changes. Otherwise the service is asked iff no live process is tracked, and what it returns becomes the tracked process. For a new process the whole new state is given: the old process is disposed, start and the button text are set, the exit event is subscribed, and the timer runs iff it exists and the process refuses exit events. A null result keeps the button state. A live tracked process, a launch that throws or the same process leaves the page unchanged. `Watched` holds afterwards iff it held before or a new process was tracked. Start is accepted from the unwatched state too. |
| `LauncherPages.LauncherPage.SetIgnoreRunningGame` | Starward/Pages/LauncherPage.xaml.cs:442-447 | An unchanged value changes nothing. A changed value refreshes the running-game state. Ignoring keeps the tracked process. Not ignoring puts a timer in place and tracks the found process, or keeps the tracked one when the lookup throws. `Watched` afterwards follows `UpdateGameState`, and an unchanged value keeps it as it was. |
| `LauncherPages.LauncherPage.UpdateGameVersion` | Starward/Pages/LauncherPage.xaml.cs:452-478 | The cloud game gets `new Version()` when its folder exists, which offers start only. Other games take the local, current and pre-release versions in turn, stopping at the first lookup that throws, and the flags become `Derive` of what was read. The pre-download result is read only when pre-download is offered. `Watched` is unaffected. |
| `LauncherPages.LauncherPage.Mute` | Starward/Pages/LauncherPage.xaml.cs:915-926 | An audible volume is remembered and set to 0, which shows the muted icon. A silent one is restored to the remembered volume, which is positive. `Watched` is unaffected. |
| `LauncherPages.LauncherPage.MuteTwice` | Starward/Pages/LauncherPage.xaml.cs:915-926 | Muting and unmuting an audible video restores its volume. |
| `LauncherPages.UnwatchedAfterFailedRefresh` | Starward/Pages/LauncherPage.xaml.cs:480-502 | A page can reach a state in which a live game is tracked with no exit subscription and a stopped timer, while start is enabled. The game refuses exit events, is started before the first refresh, and that refresh's lookup throws. |
| `LauncherPages.LauncherPage.SetTargetFPS` | Starward/Pages/LauncherPage.xaml.cs:425-438 | A changed frame rate is handed on clamped to [60, 320], and unchanged when it is already in range. An unchanged value hands nothing on. |
| `LauncherPages.LauncherPage.SetSelectGameAccount` | Starward/Pages/LauncherPage.xaml.cs:763-768 | After a selection change, the account switch is enabled iff an account is selected. |
| `LauncherPages.LauncherPage.GetGameAccount` | Starward/Pages/LauncherPage.xaml.cs:777-789 | The list is the service's accounts, the selection is the first logged-in one, and the switch is disabled. When the service throws, nothing changes. |
| `LauncherPages.LauncherPage.ChangeGameAccount` | Starward/Pages/LauncherPage.xaml.cs:795-814 | With a selection and a successful registry write: it is logged in, every other listed account is logged out, and the switch is disabled. Without a selection, or when the write throws, no account's login flag changes and neither does the switch. |
| `UiLauncherPage.LauncherPage.SetSelectGameAccount` | Starward/UI/LauncherPage.xaml.cs:129-134 | After a selection change, the account switch is enabled iff an account is selected. |
| `UiLauncherPage.LauncherPage.SetAccountServerIndex` | Starward/UI/LauncherPage.xaml.cs:81-91 | A new server shows exactly that server's accounts and selects the first logged-in one. The switch is enabled iff the selection changed to an account, and it is unchanged when the selection stays the same object. Before the accounts are read, only the index changes. |
| `UiLauncherPage.LauncherPage.constructor` | Starward/UI/LauncherPage.xaml.cs:82-143 | The page starts with no accounts read, an empty list, no selection, the switch disabled, server 0 and the configured frame rate. The invariant holds. |
| `UiLauncherPage.LauncherPage.GetGameAccount` | Starward/UI/LauncherPage.xaml.cs:213-226 | The list holds exactly the current server's accounts, the selection is a logged-in account of it or null, and the switch is disabled. When the service throws, nothing changes. |
| `UiLauncherPage.LauncherPage.ChangeGameAccount` | Starward/UI/LauncherPage.xaml.cs:264-283 | With a selection and a successful registry write: it is logged in, every other listed account is logged out, and the switch is disabled. Without a selection, or when the write throws, no listed account's login flag changes and neither does the switch. Accounts of other servers always keep their flag. |
| `UiLauncherPage.LauncherPage.SetTargetFPS` | Starward/UI/LauncherPage.xaml.cs:102-116 | A changed frame rate is handed on clamped to [60, 120], and unchanged when it is already in range. |
| `UiMainPage.SelectorIndex` | Starward/UI/MainPage.xaml.cs:93-101 | The index is -1 iff the biz is not one of the five listed games. Otherwise it is the position of that game among the selector items. |
| `UiMainPage.SelectorIndexInjective` | Starward/UI/MainPage.xaml.cs:93-101 | Different listed games get different indexes. |
| `UiMainPage.Selection` | Starward/UI/MainPage.xaml.cs:109-129 | The button is enabled iff the item is an element whose tag parses to a biz other than the current one. An unparsable tag selects the enum's zero value, and a non-element keeps the previous selection. |
| `UiMainPage.ReselectKeepsDisabled` | Starward/UI/MainPage.xaml.cs:113-120 | Picking the item of the current game selects it and leaves the button disabled. |
| `UiMainPage.MainPage.constructor` | Starward/UI/MainPage.xaml.cs:44-55 | The page starts on the remembered game, selects its index (-1 when it is not listed), and navigates once to the launcher page with that game. |
| `UiMainPage.MainPage.InitializeSelectGameBiz` | Starward/UI/MainPage.xaml.cs:91-106 | A listed current game selects its own item. Any other game leaves the selection alone. |
| `UiMainPage.MainPage.SelectionChanged` | Starward/UI/MainPage.xaml.cs:109-129 | The new selected game and button state are `Selection` of the item, and an enabled button means a game other than the current one. |
| `UiMainPage.MainPage.NavigateTo` | Starward/UI/MainPage.xaml.cs:288-294 | A missing page type changes nothing. Otherwise the frame navigates to it with the current game as parameter. |
| `UiMainPage.MainPage.ChangeGameBiz` | Starward/UI/MainPage.xaml.cs:132-140 | The selected game becomes current and is remembered, the button is disabled, and the frame's page is reloaded for the new game. |
| `UiMainPage.MainPage.ChangeThenReselect` | Starward/UI/MainPage.xaml.cs:132-137 | After a change, picking the same game's item again keeps the button disabled. |

## Left out

- XAML layout, styles, brushes and the button style (`UpdateStartGameButtonStyle`). Content dialogs and folder pickers are left out too. Their outcomes enter `Dispatch` as inputs: the final install folder, whether a resource is available, confirmation, repair mode and the chosen language.
- Two page effects of `DownloadGameAsync` are not carried by `Dispatch.DownloadGame`. The folder picker assigns `InstallPath` (Starward/Pages/LauncherPage.xaml.cs:1054 and :1080). The already-latest branch refreshes the versions through `UpdateGameVersion` (:1101). The model returns only the action and the registry.
- OS calls are modelled only through their results:
  - `Process.Start` with `runas` is modelled only as the executable and arguments it receives.
  - `RedirectActivationToAsync` is modelled as a recorded redirect.
  - `ShowWindow`, video pausing and play-time logging are left out.
  - `Process.Dispose` is modelled as a flag.
- Concurrency is modelled sequentially:
  - The exit event and the timer's `Elapsed` run on other threads, and `DispatcherQueue.TryEnqueue` defers the reset of the start button. Both are modelled as direct calls of `CheckGameExited`.
  - The interleavings of these callbacks are not modelled.
- Services are not modelled; their results are parameters:
  - the install path, the local and remote version lookups and the pre-download check;
  - the game launch;
  - the account reads and the registry write when switching accounts (whether each throws is an input);
  - the running-process lookup, whose throw is an input too. A process it answers with is a new handle, not yet disposed and different from the tracked one, since `Process.GetProcessesByName` creates new objects;
  - the voice-language detection, including its "None means All" default, which the dialog's choice replaces before the command line is built;
  - `AppConfig` persistence and the launcher content fetched over HTTP (banners and posts).
- `System.Version` parsing; versions are already-parsed four-integer tuples.
- `GameBizes.Parse`: `Enum.TryParse` also accepts numeric strings and comma-separated names, and other members of the enum. The model parses exactly the five selector games and "None". The enum's own source file is not part of this model. Its zero value is taken to be named "None", and every member the pages do not name is kept abstract.
- `WorkerLaunch.WorkerArgumentsRoundTrip`: the decoder splits at spaces and quotes. It does not follow the Windows rules for backslashes before a quote. So the round trip says nothing about a path ending in a backslash, or a path containing a double quote.
- The `SelectionChanged` event that setting the selector's index raises during `InitializeSelectGameBiz` is not modelled. That event picks the current game, so the button stays disabled.
- Exceptions other than access denied in `OnGameProcessChanged`, and exceptions from the settings service in the frame-rate handlers, are not modelled; the source swallows them.
- The background image updates, drag rectangles, the banner and post content, the account save and delete commands, the third-party tool, the custom background and the game settings.
- `Page_Unloaded` (it disposes the tracked process and stops the carousel timer).
- The older page's `StartGame`, a single service call.
- The unset account lists of both pages (`null` before `GetGameAccount`, at Starward/UI/LauncherPage.xaml.cs:141 on the older page) are modelled as empty. The switch only iterates a list when an account is selected, and a selection comes from that list.
