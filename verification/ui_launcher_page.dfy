/**
 * The older launcher page: one page for every game, showing the saved accounts of the server picked
 * in the account-server box, handing the target frame rate to the game settings, and switching the
 * logged-in account.
 */
module UiLauncherPage {
  import opened Wrappers
  import opened Accounts
  import UiRules

  class LauncherPage {
    /** Every saved account, null until the accounts have been read. */
    var allGameAccounts: Option<seq<GameAccount>>
    var gameAccountList: seq<GameAccount>
    var selectGameAccount: GameAccount?
    var canChangeGameAccount: bool
    var accountServerIndex: int
    var targetFPS: int

    /** The shown list is the part of the saved accounts that belongs to the chosen server. */
    ghost predicate Valid()
      reads this
    {
      allGameAccounts.Some? ==> gameAccountList == FilterByServer(allGameAccounts.value, accountServerIndex)
    }

    constructor (targetFPS: int)
      ensures Valid()
      ensures allGameAccounts.None? && gameAccountList == [] && selectGameAccount == null
      ensures !canChangeGameAccount && accountServerIndex == 0 && this.targetFPS == targetFPS
    {
      allGameAccounts := None;
      gameAccountList := [];
      selectGameAccount := null;
      canChangeGameAccount := false;
      accountServerIndex := 0;
      this.targetFPS := targetFPS;
    }

    /** Assigning `SelectGameAccount`: a changed value enables the switch iff an account is selected. */
    method SetSelectGameAccount(value: GameAccount?)
      modifies this`selectGameAccount, this`canChangeGameAccount
      ensures selectGameAccount == value
      ensures value != old(selectGameAccount) ==> (canChangeGameAccount <==> value != null)
      ensures value == old(selectGameAccount) ==> canChangeGameAccount == old(canChangeGameAccount)
    {
      if value != selectGameAccount {
        selectGameAccount := value;
        canChangeGameAccount := value != null;
      }
    }

    /**
     * Choosing an account server: the list shows that server's accounts and the logged-in one among
     * them is selected. Before the accounts are read the filter throws on the null list, which is
     * swallowed, and nothing but the index changes.
     */
    method SetAccountServerIndex(value: int)
      requires Valid()
      modifies this`accountServerIndex, this`gameAccountList, this`selectGameAccount
      modifies this`canChangeGameAccount
      ensures accountServerIndex == value
      ensures Valid()
      ensures value == old(accountServerIndex) || allGameAccounts.None? ==>
        gameAccountList == old(gameAccountList) && selectGameAccount == old(selectGameAccount)
        && canChangeGameAccount == old(canChangeGameAccount)
      ensures value != old(accountServerIndex) && allGameAccounts.Some? ==>
        && gameAccountList == FilterByServer(allGameAccounts.value, value)
        && selectGameAccount == FirstLoggedIn(gameAccountList)
        && (selectGameAccount != old(selectGameAccount) ==> (canChangeGameAccount <==> selectGameAccount != null))
        && (selectGameAccount == old(selectGameAccount) ==> canChangeGameAccount == old(canChangeGameAccount))
    {
      if value != accountServerIndex {
        accountServerIndex := value;
        if allGameAccounts.Some? {
          gameAccountList := FilterByServer(allGameAccounts.value, value);
          SetSelectGameAccount(FirstLoggedIn(gameAccountList));
        }
      }
    }

    /**
     * Reading the saved accounts: the list shows the current server's accounts, the logged-in one is
     * selected, and the switch is disabled until another account is picked. When the service throws
     * nothing changes.
     */
    method GetGameAccount(accounts: Outcome<seq<GameAccount>>)
      requires Valid()
      modifies this`allGameAccounts, this`gameAccountList, this`selectGameAccount
      modifies this`canChangeGameAccount
      ensures Valid()
      ensures accounts.Failed? ==> unchanged(this)
      ensures accounts.Ok? ==> allGameAccounts == Some(accounts.value)
      ensures accounts.Ok? ==>
        forall a :: a in gameAccountList ==> a in accounts.value && a.server == accountServerIndex
      ensures accounts.Ok? ==>
        forall a :: a in accounts.value && a.server == accountServerIndex ==> a in gameAccountList
      ensures accounts.Ok? ==> selectGameAccount == FirstLoggedIn(gameAccountList)
      ensures accounts.Ok? && selectGameAccount != null ==>
        selectGameAccount in accounts.value && selectGameAccount.isLogin
      ensures accounts.Ok? ==> !canChangeGameAccount
    {
      if accounts.Ok? {
        var all := accounts.value;
        var list := FilterByServer(all, accountServerIndex);
        var first := FirstLoggedIn(list);
        assert first != null ==> first in all;
        allGameAccounts, gameAccountList := Some(all), list;
        // the setter's change handler sets the switch, which the next line overrides
        selectGameAccount := first;
        canChangeGameAccount := false;
      }
    }

    /**
     * Switching to the selected account: the service writes it to the registry (`written` is false
     * when that throws), then every account of the shown list is logged out and the selected one
     * logged in; accounts of other servers keep their flag. Nothing happens without a selection or
     * when the write throws.
     */
    method ChangeGameAccount(written: bool)
      requires Valid()
      modifies this`canChangeGameAccount, gameAccountList, selectGameAccount
      ensures Valid()
      ensures selectGameAccount == null || !written ==>
        && canChangeGameAccount == old(canChangeGameAccount)
        && (forall a :: a in gameAccountList ==> a.isLogin == old(a.isLogin))
        && (selectGameAccount != null ==> selectGameAccount.isLogin == old(selectGameAccount.isLogin))
      ensures selectGameAccount != null && written ==>
        && selectGameAccount.isLogin
        && (forall a :: a in gameAccountList && a != selectGameAccount ==> !a.isLogin)
        && !canChangeGameAccount
      ensures allGameAccounts.Some? ==>
        forall a :: a in allGameAccounts.value && a !in gameAccountList && a != selectGameAccount ==>
          a.isLogin == old(a.isLogin)
    {
      if selectGameAccount != null && written {
        LogInOnly(gameAccountList, selectGameAccount);
        canChangeGameAccount := false;
      }
    }

    /**
     * Assigning `TargetFPS`: a changed value is clamped to [60, 120] before it is saved and handed to
     * the game; `passedOn` is what was handed on, if anything.
     */
    method SetTargetFPS(value: int) returns (passedOn: Option<int>)
      modifies this`targetFPS
      ensures targetFPS == value
      ensures passedOn.None? <==> value == old(targetFPS)
      ensures passedOn.Some? ==> UiRules.GameFpsMin <= passedOn.value <= UiRules.GameFpsMax
      ensures passedOn.Some? && UiRules.GameFpsMin <= value <= UiRules.GameFpsMax ==> passedOn.value == value
    {
      if value == targetFPS {
        passedOn := None;
      } else {
        targetFPS := value;
        passedOn := Some(UiRules.Clamp(value, UiRules.GameFpsMin, UiRules.GameFpsMax));
      }
    }
  }
}
