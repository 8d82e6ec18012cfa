/**
 * The per-game launcher page: which of start / download / update / pre-download / repair is offered,
 * the tracking of a running game process (exit event or polling timer), the mute toggle, the frame
 * rate hand-off and the saved-account switch.
 *
 * The OS process is an object whose `HasExited` flag the OS flips, which may refuse the exit-event
 * subscription (an elevated game denies it with Win32 error 5), and which the page disposes. The
 * services the page asks (install path, versions, running process, game launch) are parameters.
 */
module LauncherPages {
  import opened Wrappers
  import opened GameBizes
  import opened Versions
  import opened Eligibility
  import opened Accounts
  import UiRules

  /** A handle on a game process. */
  class Process {
    /** False for a process that refuses `EnableRaisingEvents` with "access is denied". */
    const exitEventsAllowed: bool
    var hasExited: bool
    var exitSubscribed: bool
    var disposed: bool

    constructor (exitEventsAllowed: bool)
      ensures this.exitEventsAllowed == exitEventsAllowed
      ensures !hasExited && !exitSubscribed && !disposed
    {
      this.exitEventsAllowed := exitEventsAllowed;
      hasExited := false;
      exitSubscribed := false;
      disposed := false;
    }

    /** The game quits; the OS reports `HasExited` from now on. */
    method Exit()
      modifies this`hasExited
      ensures hasExited
    {
      hasExited := true;
    }

    method Dispose()
      modifies this`disposed
      ensures disposed
    {
      disposed := true;
    }

    /** `EnableRaisingEvents = true` and the `Exited` subscription; `denied` is the access-denied error. */
    method SubscribeExit() returns (denied: bool)
      modifies this`exitSubscribed
      ensures denied == !exitEventsAllowed
      ensures exitSubscribed == (old(exitSubscribed) || exitEventsAllowed)
    {
      denied := !exitEventsAllowed;
      if !denied {
        exitSubscribed := true;
      }
    }
  }

  /** The objects a nullable process reference denotes, for frames. */
  function Ref(p: Process?): set<Process> {
    if p == null then {} else {p}
  }

  /** The process a lookup answered with, or null when it threw, for frames. */
  function FoundProcess(found: Outcome<Process?>): Process? {
    if found.Ok? then found.value else null
  }

  /** The one-second polling timer: not yet created (null), created and stopped, or running. */
  datatype TimerState = Absent | Stopped | Running

  datatype StartButtonText = StartGameText | GameIsRunningText

  /** What the game service's `StartGame` did: returned a process (or null), or threw. */
  datatype Launch = Returned(process: Process?) | Threw

  class LauncherPage {
    const gameBiz: GameBiz
    var localVersion: Option<Version>
    var currentVersion: Option<Version>
    var preVersion: Option<Version>
    var isPreDownloadOK: bool
    var installPath: Option<string>

    var gameProcess: Process?
    var canStartGame: bool
    var startGameButtonText: StartButtonText
    var processTimer: TimerState
    var ignoreRunningGame: bool

    var targetFPS: int
    var videoBgVolume: int
    var notMuteVolume: int

    var gameAccountList: seq<GameAccount>
    var selectGameAccount: GameAccount?
    var canChangeGameAccount: bool

    /** Everything but the two rules below about the tracked process. */
    ghost predicate Sound()
      reads this, gameProcess
    {
      && (gameProcess != null && gameProcess.exitEventsAllowed ==> gameProcess.exitSubscribed)
      && (processTimer == Running ==> gameProcess != null && !gameProcess.exitEventsAllowed)
      && (canStartGame <==> startGameButtonText == StartGameText)
      && notMuteVolume > 0
      && (gameBiz == hk4e_cloud ==> currentVersion.None? && preVersion.None?)
    }

    /**
     * Once the polling timer exists, a tracked process is watched: either its exit event is
     * subscribed or the timer is polling it.
     */
    ghost predicate Watched()
      reads this, gameProcess
    {
      gameProcess != null && processTimer != Absent ==> gameProcess.exitSubscribed || processTimer == Running
    }

    /** The tracked process has not been disposed. */
    ghost predicate Live()
      reads this, gameProcess
    {
      gameProcess != null ==> !gameProcess.disposed
    }

    ghost predicate Valid()
      reads this, gameProcess
    {
      Sound() && Live() && Watched()
    }

    /** A process is tracked whose exit event is not subscribed. */
    ghost predicate Unsubscribed()
      reads this, gameProcess
    {
      gameProcess != null && !gameProcess.exitSubscribed
    }

    /**
     * The five `Is*Enable` properties, read off the page's versions: exactly one of download,
     * update and start is offered, download exactly when nothing is installed.
     */
    function Flags(): (f: EligibilityFlags)
      reads this
      ensures f.downloadGame <==> localVersion.None?
      ensures (f.downloadGame && !f.updateGame && !f.startGame)
              || (!f.downloadGame && f.updateGame && !f.startGame)
              || (!f.downloadGame && !f.updateGame && f.startGame)
      ensures f.preDownload <==> localVersion.Some? && preVersion.Some?
      ensures f.repairGame <==> Repairable(gameBiz) && localVersion.Some?
    {
      ExactlyOneAction(gameBiz, localVersion, currentVersion, preVersion);
      Derive(gameBiz, localVersion, currentVersion, preVersion)
    }

    constructor (gameBiz: GameBiz, ignoreRunningGame: bool, videoBgVolume: int)
      ensures Valid()
      ensures this.gameBiz == gameBiz && this.ignoreRunningGame == ignoreRunningGame
      ensures this.videoBgVolume == videoBgVolume && notMuteVolume == 100
      ensures localVersion.None? && currentVersion.None? && preVersion.None? && installPath.None?
      ensures gameProcess == null && canStartGame && startGameButtonText == StartGameText
      ensures processTimer == Absent
      ensures gameAccountList == [] && selectGameAccount == null && !canChangeGameAccount
    {
      this.gameBiz := gameBiz;
      localVersion, currentVersion, preVersion := None, None, None;
      isPreDownloadOK := false;
      installPath := None;
      gameProcess := null;
      canStartGame := true;
      startGameButtonText := StartGameText;
      processTimer := Absent;
      this.ignoreRunningGame := ignoreRunningGame;
      targetFPS := 0;
      this.videoBgVolume := videoBgVolume;
      notMuteVolume := 100;
      gameAccountList := [];
      selectGameAccount := null;
      canChangeGameAccount := false;
    }

    /**
     * Assigning `GameProcess`, with its change handler: a different value disposes the old process
     * and stops the timer; a non-null one marks the game as running and subscribes to its exit,
     * falling back to the polling timer (if one exists) when access is denied.
     */
    method SetGameProcess(newValue: Process?)
      requires Sound()
      requires newValue != gameProcess || Live()
      requires newValue != null ==> !newValue.disposed
      modifies this`gameProcess, this`canStartGame, this`startGameButtonText, this`processTimer
      modifies Ref(gameProcess)`disposed, Ref(newValue)`exitSubscribed
      ensures Sound() && Live()
      ensures newValue != old(gameProcess) ==> Watched()
      ensures newValue == old(gameProcess) ==> (Watched() <==> old(Watched()))
      ensures newValue != null ==>
        newValue.exitSubscribed == (old(newValue.exitSubscribed) || newValue.exitEventsAllowed)
      ensures gameProcess == newValue
      ensures newValue == old(gameProcess) ==>
        canStartGame == old(canStartGame) && startGameButtonText == old(startGameButtonText)
        && processTimer == old(processTimer)
      ensures newValue != old(gameProcess) && old(gameProcess) != null ==> old(gameProcess).disposed
      ensures newValue != old(gameProcess) && newValue == null ==>
        canStartGame == old(canStartGame) && startGameButtonText == old(startGameButtonText)
        && processTimer == (if old(processTimer) == Absent then Absent else Stopped)
      ensures newValue != old(gameProcess) && newValue != null ==>
        !canStartGame && startGameButtonText == GameIsRunningText
        && processTimer == (if old(processTimer) == Absent then Absent
                            else if newValue.exitEventsAllowed then Stopped else Running)
    {
      if newValue != gameProcess {
        var oldValue := gameProcess;
        gameProcess := newValue;
        if oldValue != null {
          oldValue.Dispose();
        }
        if processTimer == Running {
          processTimer := Stopped;
        }
        if newValue != null {
          canStartGame := false;
          startGameButtonText := GameIsRunningText;
          var denied := newValue.SubscribeExit();
          if denied && processTimer != Absent {
            processTimer := Running;
          }
        }
      }
    }

    /**
     * Refreshing the running-game state: the start button is reset, and unless running games are
     * ignored the polling timer is created and the process the service found is tracked. A lookup
     * that throws leaves the tracked process as it was; if the timer was only created by this call,
     * a tracked process that refuses exit events is then left unwatched.
     */
    method UpdateGameState(found: Outcome<Process?>)
      requires Sound() && Live()
      requires found.Ok? && found.value != null ==> found.value != gameProcess && !found.value.disposed
      modifies this`gameProcess, this`canStartGame, this`startGameButtonText, this`processTimer
      modifies Ref(gameProcess)`disposed, Ref(FoundProcess(found))`exitSubscribed
      ensures Sound() && Live()
      ensures !Watched() <==>
        || (!old(Watched()) && (old(ignoreRunningGame) || found.Failed?))
        || (found.Failed? && !old(ignoreRunningGame) && old(processTimer) == Absent && old(Unsubscribed()))
      ensures old(ignoreRunningGame) ==>
        canStartGame && gameProcess == old(gameProcess) && processTimer == old(processTimer)
      ensures !old(ignoreRunningGame) && found.Failed? ==>
        canStartGame && gameProcess == old(gameProcess)
        && processTimer == (if old(processTimer) == Absent then Stopped else old(processTimer))
      ensures !old(ignoreRunningGame) && found.Ok? ==>
        gameProcess == found.value && processTimer != Absent && (canStartGame <==> found.value == null)
      ensures !old(ignoreRunningGame) && found.Ok? && found.value != null ==>
        found.value.exitSubscribed || processTimer == Running
      ensures !old(ignoreRunningGame) && found.Ok? && old(gameProcess) != null && old(gameProcess) != found.value ==>
        old(gameProcess).disposed
    {
      canStartGame := true;
      startGameButtonText := StartGameText;
      if ignoreRunningGame {
        return;
      }
      if processTimer == Absent {
        processTimer := Stopped;
      }
      if found.Ok? {
        SetGameProcess(found.value);
      }
    }

    /**
     * The exit-event handler and the timer's tick: only a tracked process that has exited changes
     * anything; it is disposed and dropped and the game can be started again.
     */
    method CheckGameExited()
      requires Sound() && Live()
      modifies this`gameProcess, this`canStartGame, this`startGameButtonText, this`processTimer
      modifies Ref(gameProcess)`disposed
      ensures Sound() && Live()
      ensures Watched() <==> old(Watched()) || (old(gameProcess) != null && old(gameProcess.hasExited))
      ensures old(gameProcess) == null || !old(gameProcess.hasExited) ==> unchanged(this)
      ensures old(gameProcess) != null && old(gameProcess.hasExited) ==>
        gameProcess == null && canStartGame && startGameButtonText == StartGameText
        && old(gameProcess).disposed && processTimer != Running
        && (processTimer == Absent <==> old(processTimer) == Absent)
    {
      if gameProcess != null && gameProcess.hasExited {
        canStartGame := true;
        startGameButtonText := StartGameText;
        gameProcess.Dispose();
        SetGameProcess(null);
      }
    }

    /**
     * The start command. When running games are ignored the launched process is not tracked;
     * otherwise the service is asked only when no live process is tracked, and what it returns
     * becomes `GameProcess`. `requested` says whether the service was asked.
     */
    method StartGame(launch: Launch) returns (requested: bool)
      requires Sound() && Live()
      requires launch.Returned? && launch.process != null ==> !launch.process.disposed
      modifies this`gameProcess, this`canStartGame, this`startGameButtonText, this`processTimer
      modifies Ref(gameProcess)`disposed, Ref(if launch.Returned? then launch.process else null)`exitSubscribed
      ensures Sound() && Live()
      ensures Watched() <==>
        old(Watched()) || (!ignoreRunningGame && requested && launch.Returned? && launch.process != old(gameProcess))
      ensures ignoreRunningGame ==> requested && unchanged(this)
      ensures !ignoreRunningGame ==> (requested <==> old(gameProcess) == null || old(gameProcess.hasExited))
      ensures !requested || launch.Threw? ==> unchanged(this)
      ensures !ignoreRunningGame && requested && launch.Returned? ==> gameProcess == launch.process
      ensures !ignoreRunningGame && requested && launch.Returned? && launch.process == old(gameProcess) ==>
        unchanged(this)
      ensures !ignoreRunningGame && requested && launch.Returned? && launch.process != old(gameProcess) ==>
        && processTimer == (if old(processTimer) == Absent then Absent
                            else if launch.process != null && !launch.process.exitEventsAllowed then Running
                            else Stopped)
        && (launch.process != null ==> !canStartGame && startGameButtonText == GameIsRunningText)
        && (launch.process == null ==>
              canStartGame == old(canStartGame) && startGameButtonText == old(startGameButtonText))
        && (old(gameProcess) != null ==> old(gameProcess).disposed)
        && (launch.process != null ==>
              launch.process.exitSubscribed == (old(launch.process.exitSubscribed) || launch.process.exitEventsAllowed))
    {
      if ignoreRunningGame {
        requested := true;
      } else {
        requested := gameProcess == null || gameProcess.hasExited;
        if requested && launch.Returned? {
          SetGameProcess(launch.process);
        }
      }
    }

    /** Toggling "ignore running game" refreshes the running-game state. */
    method SetIgnoreRunningGame(value: bool, found: Outcome<Process?>)
      requires Sound() && Live()
      requires found.Ok? && found.value != null ==> found.value != gameProcess && !found.value.disposed
      modifies this`ignoreRunningGame, this`gameProcess, this`canStartGame, this`startGameButtonText
      modifies this`processTimer, Ref(gameProcess)`disposed, Ref(FoundProcess(found))`exitSubscribed
      ensures Sound() && Live()
      ensures !Watched() <==>
        || (!old(Watched()) && (value == old(ignoreRunningGame) || value || found.Failed?))
        || (value != old(ignoreRunningGame) && !value && found.Failed? && old(processTimer) == Absent
            && old(Unsubscribed()))
      ensures ignoreRunningGame == value
      ensures value == old(ignoreRunningGame) ==> unchanged(this)
      ensures value != old(ignoreRunningGame) ==> canStartGame == (value || found.Failed? || found.value == null)
      ensures value != old(ignoreRunningGame) && value ==> gameProcess == old(gameProcess)
      ensures value != old(ignoreRunningGame) && !value ==>
        processTimer != Absent && gameProcess == (if found.Ok? then found.value else old(gameProcess))
    {
      if value != ignoreRunningGame {
        ignoreRunningGame := value;
        UpdateGameState(found);
      }
    }

    /**
     * Reading the install path and the versions. The cloud game only needs its folder to exist and
     * is then given the empty version; every other game reads its local version, then the current
     * and pre-release versions, then (when pre-download is offered) whether the pre-download is
     * complete. A lookup that throws ends the refresh there.
     */
    method UpdateGameVersion(path: Option<string>, existingDirectories: set<string>,
                             local: Outcome<Option<Version>>,
                             remote: Outcome<(Option<Version>, Option<Version>)>,
                             preDownloadOK: Outcome<bool>)
      requires Sound() && Live()
      modifies this`installPath, this`localVersion, this`currentVersion, this`preVersion
      modifies this`isPreDownloadOK
      ensures Sound() && Live() && (Watched() <==> old(Watched()))
      ensures installPath == path
      ensures gameBiz == hk4e_cloud ==>
        && localVersion == (if path.Some? && path.value in existingDirectories then Some(EmptyVersion)
                            else old(localVersion))
        && isPreDownloadOK == old(isPreDownloadOK)
      ensures gameBiz == hk4e_cloud && path.Some? && path.value in existingDirectories ==>
        Flags() == EligibilityFlags(true, false, false, false, false)
      ensures gameBiz != hk4e_cloud ==>
        && localVersion == (if local.Ok? then local.value else old(localVersion))
        && (currentVersion, preVersion) ==
             (if local.Ok? && remote.Ok? then remote.value else (old(currentVersion), old(preVersion)))
        && isPreDownloadOK ==
             (if local.Ok? && remote.Ok? && local.value.Some? && remote.value.1.Some? && preDownloadOK.Ok?
              then preDownloadOK.value else old(isPreDownloadOK))
      ensures gameBiz != hk4e_cloud && local.Ok? && remote.Ok? ==>
        Flags() == Derive(gameBiz, local.value, remote.value.0, remote.value.1)
    {
      installPath := path;
      if gameBiz == hk4e_cloud {
        if path.Some? && path.value in existingDirectories {
          localVersion := Some(EmptyVersion);
          CloudInstallationStarts();
        }
        return;
      }
      if local.Failed? {
        return;
      }
      localVersion := local.value;
      if remote.Failed? {
        return;
      }
      currentVersion, preVersion := remote.value.0, remote.value.1;
      if Flags().preDownload && preDownloadOK.Ok? {
        isPreDownloadOK := preDownloadOK.value;
      }
    }

    /** `VideoBgVolumeButtonIcon`: the glyph of the video's volume band. */
    function VolumeButtonIcon(): (glyph: char)
      reads this
      ensures glyph == UiRules.VolumeGlyph(videoBgVolume)
      ensures glyph == UiRules.Volume0Glyph <==> videoBgVolume <= 1
      ensures glyph == UiRules.Volume3Glyph <==> videoBgVolume > 66
    {
      UiRules.VolumeGlyph(videoBgVolume)
    }

    /** The mute toggle: mute remembers the audible volume, unmute restores it. */
    method Mute()
      requires Sound() && Live()
      modifies this`videoBgVolume, this`notMuteVolume
      ensures Sound() && Live() && (Watched() <==> old(Watched()))
      ensures old(videoBgVolume) > 0 ==>
        videoBgVolume == 0 && notMuteVolume == old(videoBgVolume) && VolumeButtonIcon() == UiRules.Volume0Glyph
      ensures old(videoBgVolume) <= 0 ==>
        videoBgVolume == old(notMuteVolume) && notMuteVolume == old(notMuteVolume) && videoBgVolume > 0
    {
      if videoBgVolume > 0 {
        notMuteVolume := videoBgVolume;
        videoBgVolume := 0;
      } else {
        videoBgVolume := notMuteVolume;
      }
    }

    /** Muting and unmuting an audible video restores its volume. */
    method MuteTwice()
      requires Sound() && Live() && videoBgVolume > 0
      modifies this`videoBgVolume, this`notMuteVolume
      ensures Sound() && Live() && (Watched() <==> old(Watched()))
      ensures videoBgVolume == old(videoBgVolume) && notMuteVolume == old(videoBgVolume)
    {
      Mute();
      Mute();
    }

    /**
     * Assigning `TargetFPS`: a changed value runs the change handler, which hands the frame rate to
     * the game settings clamped to [60, 320]; `passedOn` is what was handed on, if anything.
     */
    method SetTargetFPS(value: int) returns (passedOn: Option<int>)
      modifies this`targetFPS
      ensures targetFPS == value
      ensures passedOn.None? <==> value == old(targetFPS)
      ensures passedOn.Some? ==> UiRules.StarRailFpsMin <= passedOn.value <= UiRules.StarRailFpsMax
      ensures passedOn.Some? && UiRules.StarRailFpsMin <= value <= UiRules.StarRailFpsMax ==>
        passedOn.value == value
    {
      if value == targetFPS {
        passedOn := None;
      } else {
        targetFPS := value;
        passedOn := Some(UiRules.Clamp(value, UiRules.StarRailFpsMin, UiRules.StarRailFpsMax));
      }
    }

    /** Assigning `SelectGameAccount`: a changed value enables the switch iff an account is selected. */
    method SetSelectGameAccount(value: GameAccount?)
      modifies this`selectGameAccount, this`canChangeGameAccount
      ensures selectGameAccount == value
      ensures value != old(selectGameAccount) ==> (canChangeGameAccount <==> value != null)
      ensures value == old(selectGameAccount) ==> canChangeGameAccount == old(canChangeGameAccount)
    {
      if value != selectGameAccount {
        selectGameAccount := value;
        canChangeGameAccount := value != null;
      }
    }

    /**
     * Loading the saved accounts: the logged-in one is selected and the switch is disabled. When the
     * service throws nothing changes.
     */
    method GetGameAccount(accounts: Outcome<seq<GameAccount>>)
      modifies this`gameAccountList, this`selectGameAccount, this`canChangeGameAccount
      ensures accounts.Failed? ==>
        gameAccountList == old(gameAccountList) && selectGameAccount == old(selectGameAccount)
        && canChangeGameAccount == old(canChangeGameAccount)
      ensures accounts.Ok? ==>
        gameAccountList == accounts.value && selectGameAccount == FirstLoggedIn(accounts.value)
        && !canChangeGameAccount
    {
      if accounts.Ok? {
        gameAccountList := accounts.value;
        SetSelectGameAccount(FirstLoggedIn(accounts.value));
        canChangeGameAccount := false;
      }
    }

    /**
     * Switching to the selected account: the service writes it to the registry (`written` is false
     * when that throws), then every listed account is logged out and the selected one logged in.
     * Nothing happens without a selection or when the write throws.
     */
    method ChangeGameAccount(written: bool)
      modifies this`canChangeGameAccount, gameAccountList, selectGameAccount
      ensures selectGameAccount == null || !written ==>
        && canChangeGameAccount == old(canChangeGameAccount)
        && (forall a :: a in gameAccountList ==> a.isLogin == old(a.isLogin))
        && (selectGameAccount != null ==> selectGameAccount.isLogin == old(selectGameAccount.isLogin))
      ensures selectGameAccount != null && written ==>
        && selectGameAccount.isLogin
        && (forall a :: a in gameAccountList && a != selectGameAccount ==> !a.isLogin)
        && !canChangeGameAccount
    {
      if selectGameAccount != null && written {
        LogInOnly(gameAccountList, selectGameAccount);
        canChangeGameAccount := false;
      }
    }
  }

  /**
   * The one way a tracked game goes unwatched: a game that refuses exit events is launched before
   * the first refresh, and that refresh's process lookup throws. The timer then exists but is
   * stopped, while start stays enabled.
   */
  method UnwatchedAfterFailedRefresh() returns (page: LauncherPage, game: Process)
    ensures page.gameProcess == game && !game.hasExited && !game.disposed
    ensures page.processTimer == Stopped && !game.exitSubscribed && !page.Watched()
    ensures page.canStartGame && page.Sound() && page.Live()
  {
    page := new LauncherPage(hk4e_global, false, 50);
    game := new Process(false);
    var requested := page.StartGame(Returned(game));
    page.UpdateGameState(Failed);
  }
}
