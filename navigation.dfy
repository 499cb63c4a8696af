/** The site's navigation bar: the fixed list of pages, the case-insensitive
    lesson search over their names, and the three pieces of state the bar
    keeps (the mobile menu, the search text and whether the results
    dropdown is open), together with the router location it reads. */
module Navigation {
  import opened JsString
  import Seqs

  /** A page of the site: the label shown and the route it links to. */
  datatype NavItem = NavItem(name: string, path: string)

  /** The pages in the order the bar lists them. */
  const NavItems: seq<NavItem> := [
    NavItem("Home", "/"),
    NavItem("Introduction", "/intro"),
    NavItem("Variables", "/lesson-variables"),
    NavItem("Functions", "/lesson-functions"),
    NavItem("Tables", "/lesson-tables"),
    NavItem("Control Flow", "/lesson-control-flow"),
    NavItem("Resources", "/resources"),
    NavItem("About", "/about")
  ]

  /** The search criterion: the lower-cased name contains the lower-cased query. */
  predicate Matches(query: string, item: NavItem)
  {
    Contains(ToLower(item.name), ToLower(query))
  }

  /** The pages whose names match the query, in list order: a subsequence of
      the page list holding exactly the matching pages. */
  function FilteredNavItems(query: string): (r: seq<NavItem>)
    ensures Seqs.IsSubseq(r, NavItems)
    ensures forall item :: item in r <==> item in NavItems && Matches(query, item)
  {
    var p := (item: NavItem) => Matches(query, item);
    Seqs.FilterIsSubseq(NavItems, p);
    Seqs.FilterMembersAll(NavItems, p);
    Seqs.Filter(NavItems, p)
  }

  /** The empty query matches every page, so all eight are listed in order. */
  lemma EmptyQueryKeepsAll()
    ensures FilteredNavItems("") == NavItems
  {
    var p := (item: NavItem) => Matches("", item);
    forall i | 0 <= i < |NavItems|
      ensures p(NavItems[i])
    {
      ContainsEmpty(ToLower(NavItems[i].name));
    }
    Seqs.FilterKeepsAll(NavItems, p);
  }

  /** Queries that lower-case to the same text list the same pages. */
  lemma SameLowerSameResults(q1: string, q2: string)
    requires ToLower(q1) == ToLower(q2)
    ensures FilteredNavItems(q1) == FilteredNavItems(q2)
  {
    Seqs.FilterCongruent(NavItems, (item: NavItem) => Matches(q1, item), (item: NavItem) => Matches(q2, item));
  }

  /** Queries that differ only in the case of ASCII letters list the same pages. */
  lemma CaseInsensitive(q1: string, q2: string)
    requires SameUpToAsciiCase(q1, q2)
    ensures FilteredNavItems(q1) == FilteredNavItems(q2)
  {
    ToLowerEqualIff(q1, q2);
    SameLowerSameResults(q1, q2);
  }

  /** A query and its lower-cased form list the same pages. */
  lemma LowerCaseQuery(query: string)
    ensures FilteredNavItems(ToLower(query)) == FilteredNavItems(query)
  {
    ToLowerIdempotent(query);
    SameLowerSameResults(ToLower(query), query);
  }

  /** The list is empty exactly when no page matches. */
  lemma FilteredEmpty(query: string)
    ensures FilteredNavItems(query) == [] <==> forall item :: item in NavItems ==> !Matches(query, item)
  {
    var r := FilteredNavItems(query);
    if r != [] {
      assert r[0] in r;
    }
  }

  /** No two pages share a route or a label (the label is also the React key). */
  lemma NavItemsDistinct()
    ensures forall i, j :: 0 <= i < j < |NavItems| ==> NavItems[i].path != NavItems[j].path
    ensures forall i, j :: 0 <= i < j < |NavItems| ==> NavItems[i].name != NavItems[j].name
  {
  }

  /** What the desktop search shows below the input. */
  datatype Dropdown = Hidden | Results(items: seq<NavItem>) | NoLessonsFound

  /** The navigation bar's state. pathname stands for the router location
      the bar reads and writes. */
  class NavigationBar {
    var isMenuOpen: bool
    var searchQuery: string
    var showSearchResults: bool
    var pathname: string

    /** Mounting: menu closed, empty search, no dropdown, at the router's location. */
    constructor (location: string)
      ensures !isMenuOpen && searchQuery == "" && !showSearchResults
      ensures pathname == location
    {
      isMenuOpen := false;
      searchQuery := "";
      showSearchResults := false;
      pathname := location;
    }

    /** The dropdown is visible only while results are on and the query is
        non-empty; when visible it lists the matching pages, or says that no
        lesson was found exactly when none matches. */
    function Dropdown(): (d: Dropdown)
      reads this
      ensures d.Hidden? <==> !showSearchResults || searchQuery == ""
      ensures d.NoLessonsFound? <==>
        showSearchResults && searchQuery != "" && forall item :: item in NavItems ==> !Matches(searchQuery, item)
      ensures d.Results? ==> d.items != [] && d.items == FilteredNavItems(searchQuery)
    {
      FilteredEmpty(searchQuery);
      if !showSearchResults || searchQuery == "" then Hidden
      else if FilteredNavItems(searchQuery) == [] then NoLessonsFound
      else Results(FilteredNavItems(searchQuery))
    }

    /** The links of the mobile menu: the matching pages while the menu is
        open, nothing while it is closed. */
    function MobileLinks(): (links: seq<NavItem>)
      reads this
      ensures !isMenuOpen ==> links == []
      ensures isMenuOpen ==> links == FilteredNavItems(searchQuery)
      ensures isMenuOpen ==> forall item :: item in links <==> item in NavItems && Matches(searchQuery, item)
    {
      if isMenuOpen then FilteredNavItems(searchQuery) else []
    }

    /** A link is highlighted when the current location is its route. */
    predicate IsActive(item: NavItem)
      reads this
    {
      pathname == item.path
    }

    /** Typing in either search input replaces the query and nothing else. */
    method SetSearchQuery(value: string)
      modifies this
      ensures searchQuery == value
      ensures isMenuOpen == old(isMenuOpen) && showSearchResults == old(showSearchResults)
      ensures pathname == old(pathname)
    {
      searchQuery := value;
    }

    /** Focusing the desktop input opens the results and changes nothing else. */
    method SearchFocus()
      modifies this
      ensures showSearchResults
      ensures isMenuOpen == old(isMenuOpen) && searchQuery == old(searchQuery)
      ensures pathname == old(pathname)
      ensures searchQuery != "" ==> !Dropdown().Hidden?
    {
      showSearchResults := true;
    }

    /** The callback the blur handler schedules: it closes the results. */
    method SearchBlurElapsed()
      modifies this
      ensures !showSearchResults
      ensures isMenuOpen == old(isMenuOpen) && searchQuery == old(searchQuery)
      ensures pathname == old(pathname)
      ensures Dropdown() == Hidden
    {
      showSearchResults := false;
    }

    /** Choosing a search result goes to its route and resets the search and
        the menu, so neither the dropdown nor the mobile links remain. */
    method SearchItemClick(path: string)
      modifies this
      ensures pathname == path
      ensures searchQuery == "" && !showSearchResults && !isMenuOpen
      ensures Dropdown() == Hidden && MobileLinks() == []
    {
      pathname := path;
      searchQuery := "";
      showSearchResults := false;
      isMenuOpen := false;
    }

    /** The mobile menu button flips the menu and changes nothing else. */
    method ToggleMenu()
      modifies this
      ensures isMenuOpen == !old(isMenuOpen)
      ensures searchQuery == old(searchQuery) && showSearchResults == old(showSearchResults)
      ensures pathname == old(pathname)
    {
      isMenuOpen := !isMenuOpen;
    }

    /** Each page renders a bar of its own, so a link to another route
        unmounts this bar and mounts a fresh one: the menu is closed, the
        query empty and the results closed. A link to the current route
        keeps the bar, and with it every piece of its state. */
    method FollowLink(item: NavItem)
      modifies this
      ensures pathname == item.path && IsActive(item)
      ensures item.path != old(pathname) ==> !isMenuOpen && searchQuery == "" && !showSearchResults
      ensures item.path != old(pathname) ==> Dropdown() == Hidden && MobileLinks() == []
      ensures item.path == old(pathname) ==>
        isMenuOpen == old(isMenuOpen) && searchQuery == old(searchQuery) && showSearchResults == old(showSearchResults)
    {
      if item.path != pathname {
        isMenuOpen := false;
        searchQuery := "";
        showSearchResults := false;
      }
      pathname := item.path;
    }

    /** A mobile link closes the menu and goes to its route. As with the
        desktop links, another route mounts a fresh bar with an empty
        search; the current route keeps the search as it was. */
    method MobileLinkClick(item: NavItem)
      modifies this
      ensures pathname == item.path && IsActive(item)
      ensures !isMenuOpen && MobileLinks() == []
      ensures item.path != old(pathname) ==> searchQuery == "" && !showSearchResults && Dropdown() == Hidden
      ensures item.path == old(pathname) ==>
        searchQuery == old(searchQuery) && showSearchResults == old(showSearchResults)
    {
      if item.path != pathname {
        searchQuery := "";
        showSearchResults := false;
      }
      isMenuOpen := false;
      pathname := item.path;
    }
  }

  /** After following one page's link, that page and no other is highlighted. */
  lemma OneActiveLink(nav: NavigationBar, i: nat)
    requires i < |NavItems| && nav.pathname == NavItems[i].path
    ensures forall j :: 0 <= j < |NavItems| ==> (nav.IsActive(NavItems[j]) <==> j == i)
  {
    NavItemsDistinct();
  }

  /** Toggling the menu twice restores it, and nothing else moves. */
  method ToggleMenuTwice(nav: NavigationBar)
    modifies nav
    ensures nav.isMenuOpen == old(nav.isMenuOpen) && nav.searchQuery == old(nav.searchQuery)
    ensures nav.showSearchResults == old(nav.showSearchResults) && nav.pathname == old(nav.pathname)
  {
    nav.ToggleMenu();
    nav.ToggleMenu();
  }
}
