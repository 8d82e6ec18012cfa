/**
 * What the launcher page's download, pre-download and repair commands end up doing: open the cloud
 * game's web page, give way to another launcher instance, stop, or start the elevated worker with a
 * given executable and command line. The dialogs and services they consult are inputs.
 */
module Dispatch {
  import opened Wrappers
  import opened GameBizes
  import opened InstanceGate
  import opened WorkerLaunch

  const CloudGameUrl := "https://mhyy.mihoyo.com/"

  datatype Action =
    | OpenUrl(url: string)
    | Redirected
    | NoInstallFolder
    | AlreadyLatest
    | Cancelled
    | StartWorker(exe: string, arguments: string)

  datatype Step = Step(action: Action, registry: Registry)

  /** What `DownloadGameAsync` learns from its dialogs and services, in the order it asks. */
  datatype DownloadInputs = DownloadInputs(
    installFolder: Option<string>,  // the install folder once the folder dialogs are done, if it exists
    resourceAvailable: bool,        // the download service found something to download
    confirmed: bool,                // the download dialog was accepted
    repairMode: bool,               // the dialog's repair-mode switch
    language: int)                  // the voice languages chosen in the dialog, as their enum value

  /** How C# interpolation prints a possibly-null install path. */
  function PathText(path: Option<string>): (text: string)
    ensures path.Some? ==> text == path.value
    ensures text == "" <==> path.None? || path.value == ""
  {
    if path.Some? then path.value else ""
  }

  /** `DownloadGameAsync` */
  function DownloadGame(biz: GameBiz, r: Registry, self: InstanceId, inputs: DownloadInputs, env: ExeEnvironment): (s: Step)
    ensures biz == hk4e_cloud ==> s == Step(OpenUrl(CloudGameUrl), r)
    ensures biz != hk4e_cloud ==> (s.action == Redirected <==> HeldByOther(r, self, biz))
    ensures s.action.StartWorker?
      <==> biz != hk4e_cloud && !HeldByOther(r, self, biz)
           && inputs.installFolder.Some? && inputs.resourceAvailable && inputs.confirmed
    ensures s.action.StartWorker? ==> s.action.exe == ResolveWorkerExe(env) && DownloadKey(biz) !in s.registry.holders
  {
    if biz == hk4e_cloud then Step(OpenUrl(CloudGameUrl), r)
    else
      var gate := CheckRedirectInstance(r, self, biz);
      if gate.abort then Step(Redirected, gate.registry)
      else if inputs.installFolder.None? then Step(NoInstallFolder, gate.registry)
      else if !inputs.resourceAvailable then Step(AlreadyLatest, gate.registry)
      else if !inputs.confirmed then Step(Cancelled, gate.registry)
      else
        var verb := if inputs.repairMode then Repair else Download;
        Step(StartWorker(ResolveWorkerExe(env), WorkerArguments(verb, biz, inputs.installFolder.value, inputs.language)), gate.registry)
  }

  /**
   * `PreDownloadGameAsync`: after the instance check, an already finished pre-download is verified
   * by a `download` worker once confirmed; otherwise the whole download command runs on the registry
   * the first check left behind (the key removed), checking it a second time.
   */
  function PreDownloadGame(
    biz: GameBiz, r: Registry, self: InstanceId, isPreDownloadOK: bool, installPath: Option<string>,
    confirmed: bool, language: int, inputs: DownloadInputs, env: ExeEnvironment): (s: Step)
    ensures HeldByOther(r, self, biz) ==> s.action == Redirected && s.registry.holders == r.holders
    ensures s.action.StartWorker? ==> !HeldByOther(r, self, biz) && DownloadKey(biz) !in s.registry.holders
    ensures s.action.StartWorker? ==> s.action.exe == ResolveWorkerExe(env)
    ensures isPreDownloadOK && !HeldByOther(r, self, biz) ==> (s.action.StartWorker? <==> confirmed)
    ensures !isPreDownloadOK && !HeldByOther(r, self, biz) ==>
      s == DownloadGame(biz, r.(holders := r.holders - {DownloadKey(biz)}), self, inputs, env)
  {
    var gate := CheckRedirectInstance(r, self, biz);
    if gate.abort then Step(Redirected, gate.registry)
    else if isPreDownloadOK then
      if confirmed then
        Step(StartWorker(ResolveWorkerExe(env), WorkerArguments(Download, biz, PathText(installPath), language)), gate.registry)
      else Step(Cancelled, gate.registry)
    else DownloadGame(biz, gate.registry, self, inputs, env)
  }

  /** `RepairGameAsync`: always starts a `repair` worker; it takes no registry, so it never consults one. */
  function RepairGame(biz: GameBiz, installPath: Option<string>, language: int, env: ExeEnvironment): (a: Action)
    ensures a.StartWorker? && a.exe == ResolveWorkerExe(env)
    ensures "repair " <= a.arguments
  {
    StartWorker(ResolveWorkerExe(env), WorkerArguments(Repair, biz, PathText(installPath), language))
  }

  /** A started download worker reads back the biz, the chosen folder, the language and `repair` iff repair mode was on. */
  lemma DownloadWorkerCommand(biz: GameBiz, r: Registry, self: InstanceId, inputs: DownloadInputs, env: ExeEnvironment)
    requires WellFormed(biz)
    requires inputs.installFolder.Some? ==> '"' !in inputs.installFolder.value
    ensures var s := DownloadGame(biz, r, self, inputs, env);
      s.action.StartWorker? ==>
        DecodeWorkerArguments(s.action.arguments)
          == Some(WorkerCommand(if inputs.repairMode then Repair else Download, Name(biz), inputs.installFolder.value, inputs.language))
  {
    var s := DownloadGame(biz, r, self, inputs, env);
    if s.action.StartWorker? {
      WorkerArgumentsRoundTrip(if inputs.repairMode then Repair else Download, biz, inputs.installFolder.value, inputs.language);
    }
  }

  /** Verifying a finished pre-download always starts a `download` worker, never a `repair` one. */
  lemma PreDownloadVerifiesWithDownload(
    biz: GameBiz, r: Registry, self: InstanceId, installPath: Option<string>,
    language: int, inputs: DownloadInputs, env: ExeEnvironment)
    requires WellFormed(biz) && '"' !in PathText(installPath)
    requires !HeldByOther(r, self, biz)
    ensures var s := PreDownloadGame(biz, r, self, true, installPath, true, language, inputs, env);
      s.action.StartWorker?
      && DecodeWorkerArguments(s.action.arguments) == Some(WorkerCommand(Download, Name(biz), PathText(installPath), language))
  {
    WorkerArgumentsRoundTrip(Download, biz, PathText(installPath), language);
  }

  /** A repair worker reads back `repair`, the biz, the install path and the language. */
  lemma RepairWorkerCommand(biz: GameBiz, installPath: Option<string>, language: int, env: ExeEnvironment)
    requires WellFormed(biz) && '"' !in PathText(installPath)
    ensures DecodeWorkerArguments(RepairGame(biz, installPath, language, env).arguments)
      == Some(WorkerCommand(Repair, Name(biz), PathText(installPath), language))
  {
    WorkerArgumentsRoundTrip(Repair, biz, PathText(installPath), language);
  }
}
