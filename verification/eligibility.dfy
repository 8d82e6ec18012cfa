/**
 * The five action flags of the launcher page (`IsStartGameEnable`, `IsDownloadGameEnable`,
 * `IsUpdateGameEnable`, `IsPreDownloadEnable`, `IsRepairGameEnable`), recomputed from the page's
 * local, current and pre-release versions and its game biz on every read.
 */
module Eligibility {
  import opened Wrappers
  import opened GameBizes
  import opened Versions

  datatype EligibilityFlags = EligibilityFlags(
    startGame: bool,
    downloadGame: bool,
    updateGame: bool,
    preDownload: bool,
    repairGame: bool)

  /** The bizzes whose installations can be repaired. */
  predicate Repairable(biz: GameBiz) {
    biz == hk4e_cn || biz == hk4e_global
  }

  /**
   * The flags as the page's expression-bodied properties compute them, with the nullable version
   * operators. Stated against the plain component-wise comparison: start needs a local version at
   * least the current one (or no current version at all), update needs a current version above it.
   */
  function Derive(biz: GameBiz, local: Option<Version>, current: Option<Version>, pre: Option<Version>): (f: EligibilityFlags)
    ensures f.downloadGame <==> local.None?
    ensures f.startGame <==> local.Some? && (current.None? || !LexBefore(local.value, current.value))
    ensures f.updateGame <==> local.Some? && current.Some? && LexBefore(local.value, current.value)
    ensures f.preDownload ==> !f.downloadGame
    ensures f.repairGame ==> !f.downloadGame && Repairable(biz)
  {
    EligibilityFlags(
      startGame := local.Some? && GreaterOrEqual(local, current),
      downloadGame := local.None?,
      updateGame := local.Some? && Greater(current, local),
      preDownload := local.Some? && pre.Some?,
      repairGame := Repairable(biz) && local.Some?)
  }

  /** Exactly one of download, update and start is offered, whatever the versions. */
  lemma ExactlyOneAction(biz: GameBiz, local: Option<Version>, current: Option<Version>, pre: Option<Version>)
    ensures var f := Derive(biz, local, current, pre);
      (f.downloadGame && !f.updateGame && !f.startGame)
      || (!f.downloadGame && f.updateGame && !f.startGame)
      || (!f.downloadGame && !f.updateGame && f.startGame)
  {
  }

  /**
   * With no known current version an installed game can be started and not updated: the nullable
   * `>=` puts null below the local version.
   */
  lemma NoCurrentVersionStarts(biz: GameBiz, local: Version, pre: Option<Version>)
    ensures var f := Derive(biz, Some(local), None, pre);
      f.startGame && !f.updateGame && !f.downloadGame
  {
  }

  /** Pre-download is offered iff both the local and the pre-release version are known. */
  lemma PreDownloadIffBoth(biz: GameBiz, local: Option<Version>, current: Option<Version>, pre: Option<Version>)
    ensures Derive(biz, local, current, pre).preDownload <==> local.Some? && pre.Some?
  {
  }

  /** Repair is offered iff the biz is one of the two repairable ones and a local version is known. */
  lemma RepairIffRepairableAndInstalled(biz: GameBiz, local: Option<Version>, current: Option<Version>, pre: Option<Version>)
    ensures Derive(biz, local, current, pre).repairGame <==> (biz == hk4e_cn || biz == hk4e_global) && local.Some?
  {
  }

  /**
   * A cloud installation whose folder exists gets the empty version `new Version()` as its local
   * version and never a current one, so it is offered start only.
   */
  lemma CloudInstallationStarts()
    ensures Derive(hk4e_cloud, Some(EmptyVersion), None, None)
      == EligibilityFlags(startGame := true, downloadGame := false, updateGame := false, preDownload := false, repairGame := false)
  {
  }

  /** Not installed: only download. */
  lemma NotInstalledScenario()
    ensures Derive(hk4e_cn, None, Some(Version(1, 2, 0, -1)), None)
      == EligibilityFlags(startGame := false, downloadGame := true, updateGame := false, preDownload := false, repairGame := false)
  {
  }

  /** Up to date with a pre-release announced: start and pre-download. */
  lemma UpToDateWithPreReleaseScenario()
    ensures Derive(hkrpg_global, Some(Version(1, 2, 0, -1)), Some(Version(1, 2, 0, -1)), Some(Version(1, 3, 0, -1)))
      == EligibilityFlags(startGame := true, downloadGame := false, updateGame := false, preDownload := true, repairGame := false)
  {
  }

  /** Behind the current version: update (and, for a repairable biz, repair). */
  lemma OutdatedScenario()
    ensures Derive(hk4e_global, Some(Version(1, 1, 0, -1)), Some(Version(1, 2, 0, -1)), None)
      == EligibilityFlags(startGame := false, downloadGame := false, updateGame := true, preDownload := false, repairGame := true)
  {
  }
}
