/** The bottom navigation bar: a remembered tab index, three items that set
    it, and a `when` that composes the matching screen. */
module Navigation {
  import opened Optional

  datatype Screen = Recents | Dialer | Contacts

  /** The index a navigation item writes when clicked. */
  function TabOf(screen: Screen): (tab: int)
    ensures 0 <= tab <= 2
  {
    match screen
    case Recents => 0
    case Dialer => 1
    case Contacts => 2
  }

  /** The screen the `when (selectedTab)` composes; it has no else branch,
      so any other index shows no screen. */
  function ScreenAt(tab: int): (shown: Option<Screen>)
    ensures shown.Some? <==> 0 <= tab <= 2
  {
    if tab == 0 then Some(Recents)
    else if tab == 1 then Some(Dialer)
    else if tab == 2 then Some(Contacts)
    else None
  }

  /** Clicking an item shows its screen, and each shown index belongs to one item. */
  lemma TabRoundTrip(screen: Screen, tab: int)
    ensures ScreenAt(TabOf(screen)) == Some(screen)
    ensures 0 <= tab <= 2 ==> TabOf(ScreenAt(tab).value) == tab
  {
  }

  class PhoneApp {
    var selectedTab: int

    ghost predicate Valid()
      reads this
    {
      0 <= selectedTab <= 2
    }

    constructor ()
      ensures Valid() && ScreenAt(selectedTab) == Some(Recents)
    {
      selectedTab := 0;
    }

    /** An item is drawn selected when the index is its own. */
    predicate IsSelected(item: Screen)
      reads this
    {
      selectedTab == TabOf(item)
    }

    /** The onClick of a navigation item. */
    method OnNavItemClick(item: Screen)
      modifies this
      ensures Valid() && selectedTab == TabOf(item)
      ensures ScreenAt(selectedTab) == Some(item)
      ensures forall other :: IsSelected(other) <==> other == item
    {
      selectedTab := TabOf(item);
    }
  }

  /** In every state exactly the item of the shown screen is drawn selected;
      an index outside 0..2 selects no item and shows no screen. */
  lemma {:induction false} SelectedItemIsShownScreen(app: PhoneApp, item: Screen)
    ensures app.IsSelected(item) <==> ScreenAt(app.selectedTab) == Some(item)
  {
    match item
    case Recents =>
    case Dialer =>
    case Contacts =>
  }
}
