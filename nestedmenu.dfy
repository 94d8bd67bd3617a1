/**
  The settings menu: a stack of open menus, items that show only under their
  own menu, and sub-menus that render as a list, an entry button or their bare
  children depending on which menu is open.
 */
module NestedMenu {
  import opened Wrappers

  datatype Menu = Menu(title: string, menuKey: string)

  const BaseKey: string := "base"

  /** The history a menu starts with. */
  function DefaultHistory(): seq<Menu> {
    [Menu("base", BaseKey)]
  }

  /** `[...prev, menu]`. */
  function Pushed(history: seq<Menu>, menu: Menu): (r: seq<Menu>)
    ensures |r| == |history| + 1 && r[..|history|] == history && r[|history|] == menu
  {
    history + [menu]
  }

  /** `prev.slice(0, -1)`: the last entry removed; an empty history stays empty. */
  function Popped(history: seq<Menu>): (r: seq<Menu>)
    ensures |history| > 0 ==> |r| == |history| - 1 && forall i :: 0 <= i < |r| ==> r[i] == history[i]
    ensures |history| == 0 ==> r == []
  {
    if |history| == 0 then [] else history[..|history| - 1]
  }

  /** Pushing and then popping gives back the history. */
  lemma PopUndoesPush(history: seq<Menu>, menu: Menu)
    ensures Popped(Pushed(history, menu)) == history
  {
    assert (history + [menu])[..|history|] == history;
  }

  /** `history[history.length - 1]`, undefined for an empty history. */
  function Active(history: seq<Menu>): (r: Option<Menu>)
    ensures r.Some? <==> |history| > 0
    ensures r.Some? ==> r.value == history[|history| - 1]
  {
    if |history| == 0 then None else Some(history[|history| - 1])
  }

  /** The menu just pushed is the active one. */
  lemma PushedIsActive(history: seq<Menu>, menu: Menu)
    ensures Active(Pushed(history, menu)) == Some(menu)
  {
  }

  /** The back button, labelled with the active menu's title, is shown exactly when the active menu is not `base`. */
  function BackButton(active: Menu): (title: Option<string>)
    ensures title.Some? <==> active.menuKey != BaseKey
    ensures title.Some? ==> title.value == active.title
  {
    if active.menuKey != BaseKey then Some(active.title) else None
  }

  class MenuHistory {
    var history: seq<Menu>

    /** The base menu stays at the bottom of the stack. */
    ghost predicate Valid()
      reads this
    {
      |history| >= 1 && history[0] == DefaultHistory()[0]
    }

    constructor()
      ensures Valid()
      ensures history == DefaultHistory()
    {
      history := DefaultHistory();
    }

    function ActiveMenu(): Option<Menu>
      reads this
    {
      Active(history)
    }

    /** `historyPush(menu)`. */
    method Push(menu: Menu)
      requires Valid()
      modifies this
      ensures Valid()
      ensures history == Pushed(old(history), menu)
    {
      history := history + [menu];
    }

    /** `historyPop()`. */
    method Pop()
      modifies this
      ensures history == Popped(old(history))
    {
      if |history| > 0 {
        history := history[..|history| - 1];
      }
    }

    /** `handleGoBack()`: reachable only through the back button, so the active menu is not `base`. */
    method GoBack()
      requires Valid()
      requires ActiveMenu().Some? && BackButton(ActiveMenu().value).Some?
      modifies this
      ensures Valid()
      ensures history == Popped(old(history))
    {
      history := history[..|history| - 1];
    }
  }

  // ---------------------------------------------------------------------
  // Items and sub-menus
  // ---------------------------------------------------------------------

  /** The props of an `Item` that decide how it renders. */
  datatype ItemProps = ItemProps(
    parentMenuKey: Option<string>,
    itemKey: string,
    title: string,
    activeItemKey: Option<string>,
    value: string)

  /** The item is shown exactly when its parent menu (by default `base`) is the active menu. */
  predicate ItemShown(item: ItemProps, active: Menu) {
    item.parentMenuKey.GetOr(BaseKey) == active.menuKey
  }

  /** The item carries the check mark exactly when it is the menu's active item. */
  predicate ItemActive(item: ItemProps) {
    item.activeItemKey == Some(item.itemKey)
  }

  datatype SubMenuProps = SubMenuProps(
    menuKey: string,
    title: string,
    activeItemKey: Option<string>,
    parentMenuKey: Option<string>,
    children: seq<ItemProps>)

  datatype SubMenuView =
    | Nothing
    | OwnList(items: seq<ItemProps>)
    | EntryButton(title: string, slotTitle: Option<string>)
    | RawChildren(items: seq<ItemProps>)

  /** The children as the sub-menu hands them on: under this menu, with its active key. */
  function WithMenuKey(sub: SubMenuProps): (r: seq<ItemProps>)
    ensures |r| == |sub.children|
    ensures forall i :: 0 <= i < |r| ==>
              r[i] == sub.children[i].(parentMenuKey := Some(sub.menuKey), activeItemKey := sub.activeItemKey)
  {
    seq(|sub.children|, i requires 0 <= i < |sub.children| =>
      sub.children[i].(parentMenuKey := Some(sub.menuKey), activeItemKey := sub.activeItemKey))
  }

  /** `itemProps.find(item => item.itemKey === activeItemKey)`. */
  function ActiveItem(items: seq<ItemProps>, activeItemKey: Option<string>): (r: Option<ItemProps>)
    ensures r.Some? <==> exists i :: 0 <= i < |items| && Some(items[i].itemKey) == activeItemKey
    ensures r.Some? ==> exists i :: 0 <= i < |items| && items[i] == r.value &&
                          Some(r.value.itemKey) == activeItemKey &&
                          forall j :: 0 <= j < i ==> Some(items[j].itemKey) != activeItemKey
  {
    if |items| == 0 then None
    else if Some(items[0].itemKey) == activeItemKey then Some(items[0])
    else
      var r := ActiveItem(items[1..], activeItemKey);
      assert forall i :: 1 <= i < |items| ==> items[1..][i - 1] == items[i];
      if r.Some? then
        assert exists i :: 0 <= i < |items| && items[i] == r.value && Some(r.value.itemKey) == activeItemKey &&
                 forall j :: 0 <= j < i ==> Some(items[j].itemKey) != activeItemKey by {
          var k :| 0 <= k < |items| - 1 && items[1..][k] == r.value &&
                   forall j :: 0 <= j < k ==> Some(items[1..][j].itemKey) != activeItemKey;
          assert items[k + 1] == r.value;
          forall j | 1 <= j < k + 1 ensures Some(items[j].itemKey) != activeItemKey {
            assert items[1..][j - 1] == items[j];
          }
        }
        r
      else r
  }

  /** The slot title of the entry button: the active item's title when it has a non-empty one. */
  function SlotTitle(sub: SubMenuProps): Option<string> {
    match ActiveItem(sub.children, sub.activeItemKey)
    case Some(item) => if item.title != "" then Some(item.title) else None
    case None => None
  }

  /** What a `SubMenu` renders under the active menu. */
  function RenderSubMenu(sub: SubMenuProps, active: Menu): (v: SubMenuView)
    ensures |sub.children| == 0 <==> v.Nothing?
    ensures v.OwnList? <==> |sub.children| > 0 && active.menuKey == sub.menuKey
    ensures v.EntryButton? <==>
              |sub.children| > 0 && active.menuKey != sub.menuKey && active.menuKey == sub.parentMenuKey.GetOr(BaseKey)
    ensures v.OwnList? ==> v.items == WithMenuKey(sub)
    ensures v.EntryButton? ==> v.title == sub.title && v.slotTitle == SlotTitle(sub)
    ensures v.RawChildren? ==> v.items == sub.children
  {
    if |sub.children| == 0 then Nothing
    else if active.menuKey == sub.menuKey then OwnList(WithMenuKey(sub))
    else if active.menuKey == sub.parentMenuKey.GetOr(BaseKey) then EntryButton(sub.title, SlotTitle(sub))
    else RawChildren(sub.children)
  }

  /** `handleSetMenu`: the menu the entry button pushes. */
  function EntryMenu(sub: SubMenuProps): Menu {
    Menu(sub.title, sub.menuKey)
  }

  /**
    Clicking the entry button opens the sub-menu: after the push the sub-menu
    renders its own list, every item in it is shown, the one matching the
    active key is checked, and the back button appears unless the key is `base`.
   */
  lemma EntryOpensSubMenu(sub: SubMenuProps, history: seq<Menu>)
    requires |sub.children| > 0
    ensures var h := Pushed(history, EntryMenu(sub));
      && Active(h) == Some(EntryMenu(sub))
      && RenderSubMenu(sub, Active(h).value) == OwnList(WithMenuKey(sub))
      && (forall i :: 0 <= i < |sub.children| ==> ItemShown(WithMenuKey(sub)[i], Active(h).value))
      && (forall i :: 0 <= i < |sub.children| ==>
            (ItemActive(WithMenuKey(sub)[i]) <==> sub.activeItemKey == Some(sub.children[i].itemKey)))
      && (BackButton(Active(h).value).Some? <==> sub.menuKey != BaseKey)
  {
  }

  /** An item handed on by a sub-menu is shown exactly when that sub-menu is the active menu. */
  lemma HandedOnItemShownIff(sub: SubMenuProps, active: Menu, i: nat)
    requires i < |sub.children|
    ensures ItemShown(WithMenuKey(sub)[i], active) <==> RenderSubMenu(sub, active).OwnList?
  {
  }
}
