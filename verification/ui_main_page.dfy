/**
 * The main page's game selector: a combo box of five games, a "change" button that is enabled only
 * when a different game is picked, and the frame that shows the launcher page for the current game.
 */
module UiMainPage {
  import opened Wrappers
  import opened GameBizes

  /** The games of the selector, in the order of its items. */
  const SelectorItems: seq<GameBiz> := [hk4e_cn, hk4e_global, hk4e_cloud, hkrpg_cn, hkrpg_global]

  /** The selector item that shows a game, or -1 for a game the selector does not list. */
  function SelectorIndex(biz: GameBiz): (index: int)
    ensures -1 <= index < |SelectorItems|
    ensures index == -1 <==> biz !in SelectorItems
    ensures index >= 0 ==> SelectorItems[index] == biz
  {
    match biz
    case hk4e_cn => 0
    case hk4e_global => 1
    case hk4e_cloud => 2
    case hkrpg_cn => 3
    case hkrpg_global => 4
    case _ => -1
  }

  /** Different listed games sit at different items. */
  lemma SelectorIndexInjective(a: GameBiz, b: GameBiz)
    requires SelectorIndex(a) == SelectorIndex(b) >= 0
    ensures a == b
  {
    assert SelectorItems[SelectorIndex(a)] == a;
  }

  /** What the selector reports as its selected item: a framework element with an optional string tag, or something else. */
  datatype SelectedItem = NotAnElement | Element(tag: Option<string>)

  /** The pages the main frame shows. */
  datatype PageType = LauncherPageType | ScreenshotPageType | GachaLogPageType

  /**
   * A selection change: the picked game (or the enum's zero value when the tag does not parse) and
   * whether the change button is enabled. An item that is no framework element leaves the picked
   * game as it was.
   */
  function Selection(item: SelectedItem, current: GameBiz, previous: GameBiz): (r: (GameBiz, bool))
    ensures r.1 <==> item.Element? && Parse(item.tag).Some? && Parse(item.tag).value != current
    ensures r.1 ==> r.0 != current && Name(r.0) == item.tag.value
    ensures item.NotAnElement? ==> r.0 == previous
    ensures item.Element? && Parse(item.tag).None? ==> r.0 == Unset
  {
    match item
    case NotAnElement => (previous, false)
    case Element(tag) =>
      match Parse(tag)
      case None => (Unset, false)
      case Some(biz) => (biz, biz != current)
  }

  /** Picking the game that is already current never enables the change button. */
  lemma ReselectKeepsDisabled(biz: GameBiz, previous: GameBiz)
    requires !biz.Unlisted?
    ensures Selection(Element(Some(Name(biz))), biz, previous) == (biz, false)
  {
    ParseName(biz);
  }

  class MainPage {
    var currentGameBiz: GameBiz
    var selectGameBiz: GameBiz
    /** The game the configuration remembers. */
    var savedGameBiz: GameBiz
    var changeButtonEnabled: bool
    var comboSelectedIndex: int
    var sourcePageType: Option<PageType>
    /** The frame's navigations so far: the page and the game it was given. */
    var navigations: seq<(PageType, GameBiz)>

    /** The page starts on the remembered game, selects its item and shows its launcher page. */
    constructor (saved: GameBiz)
      ensures currentGameBiz == saved && selectGameBiz == saved && savedGameBiz == saved
      ensures !changeButtonEnabled
      ensures comboSelectedIndex == SelectorIndex(saved)
      ensures sourcePageType == Some(LauncherPageType)
      ensures navigations == [(LauncherPageType, saved)]
    {
      currentGameBiz, selectGameBiz, savedGameBiz := saved, saved, saved;
      changeButtonEnabled := false;
      comboSelectedIndex := -1;
      sourcePageType := None;
      navigations := [];
      new;
      InitializeSelectGameBiz();
      NavigateTo(Some(LauncherPageType));
    }

    /** The current game's item is selected; a game the selector does not list leaves the selection alone. */
    method InitializeSelectGameBiz()
      modifies this`comboSelectedIndex
      ensures comboSelectedIndex == (if currentGameBiz in SelectorItems then SelectorIndex(currentGameBiz)
                                     else old(comboSelectedIndex))
      ensures currentGameBiz in SelectorItems ==>
        0 <= comboSelectedIndex < |SelectorItems| && SelectorItems[comboSelectedIndex] == currentGameBiz
    {
      var index := SelectorIndex(currentGameBiz);
      if index >= 0 {
        comboSelectedIndex := index;
      }
    }

    /** The selection-changed handler. */
    method SelectionChanged(item: SelectedItem)
      modifies this`selectGameBiz, this`changeButtonEnabled
      ensures (selectGameBiz, changeButtonEnabled) == Selection(item, currentGameBiz, old(selectGameBiz))
      ensures changeButtonEnabled ==> selectGameBiz != currentGameBiz
    {
      changeButtonEnabled := false;
      if item.Element? {
        var parsed := Parse(item.tag);
        if parsed.Some? {
          selectGameBiz := parsed.value;
          if selectGameBiz != currentGameBiz {
            changeButtonEnabled := true;
          }
        } else {
          selectGameBiz := Unset;
        }
      }
    }

    /** Navigating the frame; a missing page type is ignored. */
    method NavigateTo(page: Option<PageType>)
      modifies this`sourcePageType, this`navigations
      ensures page.None? ==> sourcePageType == old(sourcePageType) && navigations == old(navigations)
      ensures page.Some? ==>
        sourcePageType == page && navigations == old(navigations) + [(page.value, currentGameBiz)]
    {
      if page.Some? {
        navigations := navigations + [(page.value, currentGameBiz)];
        sourcePageType := page;
      }
    }

    /**
     * The change command: the picked game becomes current and is remembered, the button is disabled
     * and the frame reloads its page for the new game.
     */
    method ChangeGameBiz()
      modifies this`currentGameBiz, this`savedGameBiz, this`changeButtonEnabled
      modifies this`sourcePageType, this`navigations
      ensures currentGameBiz == old(selectGameBiz) && savedGameBiz == currentGameBiz
      ensures !changeButtonEnabled && selectGameBiz == old(selectGameBiz)
      ensures sourcePageType == old(sourcePageType)
      ensures old(sourcePageType).None? ==> navigations == old(navigations)
      ensures old(sourcePageType).Some? ==>
        navigations == old(navigations) + [(old(sourcePageType).value, currentGameBiz)]
    {
      currentGameBiz := selectGameBiz;
      savedGameBiz := currentGameBiz;
      changeButtonEnabled := false;
      NavigateTo(sourcePageType);
    }

    /** After a change, picking the same game's item again leaves the change button disabled. */
    method ChangeThenReselect()
      requires !selectGameBiz.Unlisted?
      modifies this`currentGameBiz, this`savedGameBiz, this`changeButtonEnabled
      modifies this`sourcePageType, this`navigations, this`selectGameBiz
      ensures currentGameBiz == old(selectGameBiz) && selectGameBiz == currentGameBiz
      ensures !changeButtonEnabled
    {
      ChangeGameBiz();
      ReselectKeepsDisabled(currentGameBiz, selectGameBiz);
      SelectionChanged(Element(Some(Name(currentGameBiz))));
    }
  }
}
