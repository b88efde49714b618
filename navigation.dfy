/** The side menu (src/Components/Navbar.tsx): its entries and the page switch. */
module Navigation {
  import opened Records
  import opened Reducers

  /** The entries of the menu, top to bottom. */
  function NavItems(): (r: seq<PageType>)
    ensures |r| == 5 && Login !in r
    ensures forall i, j :: 0 <= i < j < |r| ==> r[i] != r[j]
  {
    [Landing, TeamPage, Fixtures, Info, Development]
  }

  /** Every page but the login page has a menu entry. */
  lemma MenuReachesAllButLogin()
    ensures forall p: PageType :: p in NavItems() <==> p != Login
  {
    var items := NavItems();
    forall p: PageType
      ensures p in items <==> p != Login
    {
      match p
      case Landing => assert items[0] == p;
      case TeamPage => assert items[1] == p;
      case Fixtures => assert items[2] == p;
      case Info => assert items[3] == p;
      case Development => assert items[4] == p;
      case Login =>
    }
  }

  /** What `setSelectedPage(p)` dispatches, in order. The last action has no
      payload, so `latestError` becomes undefined. */
  function SelectPageActions(p: PageType): seq<Action> {
    [SetCurrentPage(p), SetNavbarOpen(false), SetLatestError(Undefined)]
  }

  /** The store state after selecting page `p`. */
  function SelectPage(s: State, p: PageType): (r: State)
    ensures r.currentPage == p && !r.navbarOpen && r.latestError == Undefined
    ensures r == s.(currentPage := p, navbarOpen := false, latestError := Undefined)
  {
    ApplyAll(s, SelectPageActions(p))
  }

  /** Selecting a page twice is selecting it once; selecting another page
      afterwards forgets the first selection. */
  lemma SelectPageTwice(s: State, p: PageType, q: PageType)
    ensures SelectPage(SelectPage(s, p), p) == SelectPage(s, p)
    ensures SelectPage(SelectPage(s, p), q) == SelectPage(s, q)
  {
  }

  /** `setSelectedPage`: three dispatches into the one store. */
  method SetSelectedPage(store: Store, page: PageType)
    modifies store
    ensures store.state == SelectPage(old(store.state), page)
  {
    store.Dispatch(SetCurrentPage(page));
    store.Dispatch(SetNavbarOpen(false));
    store.Dispatch(SetLatestError(Undefined));
  }
}
