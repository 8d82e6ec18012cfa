/**
 * Saved game accounts as the launcher pages hold them: shared objects whose `IsLogin` flag the pages
 * flip in place, a per-server view of the full list, and the account shown as selected.
 */
module Accounts {

  class GameAccount {
    const server: int
    var isLogin: bool

    constructor (server: int, isLogin: bool)
      ensures this.server == server && this.isLogin == isLogin
    {
      this.server := server;
      this.isLogin := isLogin;
    }
  }

  /** `accounts.Where(x => x.Server == server).ToList()` */
  function FilterByServer(accounts: seq<GameAccount>, server: int): (r: seq<GameAccount>)
    ensures forall a :: a in r ==> a in accounts && a.server == server
    ensures forall a :: a in accounts && a.server == server ==> a in r
    ensures |r| <= |accounts|
    decreases |accounts|
  {
    if accounts == [] then []
    else (if accounts[0].server == server then [accounts[0]] else []) + FilterByServer(accounts[1..], server)
  }

  /** One step of the filter: the first account is kept iff it belongs to the server. */
  lemma FilterByServerUnfold(accounts: seq<GameAccount>, server: int)
    requires accounts != []
    ensures FilterByServer(accounts, server)
      == (if accounts[0].server == server then [accounts[0]] else []) + FilterByServer(accounts[1..], server)
  {
  }

  /** Filtering keeps the original order: it distributes over concatenation. */
  lemma {:induction false} FilterByServerAppend(a: seq<GameAccount>, b: seq<GameAccount>, server: int)
    ensures FilterByServer(a + b, server) == FilterByServer(a, server) + FilterByServer(b, server)
    decreases |a|
  {
    if a == [] {
      assert a + b == b;
    } else {
      assert (a + b)[0] == a[0] && (a + b)[1..] == a[1..] + b;
      FilterByServerUnfold(a + b, server);
      FilterByServerUnfold(a, server);
      FilterByServerAppend(a[1..], b, server);
    }
  }

  /** A list of accounts of one server is its own filter; in particular filtering twice changes nothing. */
  lemma {:induction false} FilterByServerKeepsMatching(accounts: seq<GameAccount>, server: int)
    requires forall a :: a in accounts ==> a.server == server
    ensures FilterByServer(accounts, server) == accounts
    decreases |accounts|
  {
    if accounts != [] {
      FilterByServerKeepsMatching(accounts[1..], server);
    }
  }

  /** `accounts.FirstOrDefault(x => x.IsLogin)`: the first logged-in account, or null when there is none. */
  function FirstLoggedIn(accounts: seq<GameAccount>): (r: GameAccount?)
    reads accounts
    ensures r == null <==> forall a :: a in accounts ==> !a.isLogin
    ensures r != null ==> r in accounts && r.isLogin
    ensures r != null ==>
      (exists i :: 0 <= i < |accounts| && accounts[i] == r && r.isLogin
         && forall j :: 0 <= j < i ==> !accounts[j].isLogin)
    decreases |accounts|
  {
    if accounts == [] then null
    else if accounts[0].isLogin then accounts[0]
    else
      var r := FirstLoggedIn(accounts[1..]);
      assert r != null ==>
        (exists i :: 0 <= i < |accounts| - 1 && accounts[1..][i] == r && r.isLogin
           && forall j :: 0 <= j < i ==> !accounts[1..][j].isLogin);
      r
  }

  /**
   * The body of both pages' `ChangeGameAccount` once the service call is made: every account of the
   * list is logged out, then the selected one is logged in.
   */
  method LogInOnly(accounts: seq<GameAccount>, selected: GameAccount)
    modifies accounts, selected
    ensures selected.isLogin
    ensures forall a :: a in accounts && a != selected ==> !a.isLogin
  {
    for i := 0 to |accounts|
      invariant forall j :: 0 <= j < i ==> !accounts[j].isLogin
    {
      accounts[i].isLogin := false;
    }
    selected.isLogin := true;
  }
}
