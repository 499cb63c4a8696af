/** The lesson search on sample queries: a query in capitals that singles
    out one page, and one that matches nothing. */
module NavigationExamples {
  import opened JsString
  import opened Navigation
  import Seqs

  /** A text lacking one of the needle's characters does not contain the needle. */
  lemma MissingChar(hay: string, needle: string, c: char)
    requires c in needle && c !in hay
    ensures !Contains(hay, needle)
  {
    forall i: nat | i + |needle| <= |hay|
      ensures !OccursAt(hay, needle, i)
    {
      var k :| 0 <= k < |needle| && needle[k] == c;
      assert hay[i..i + |needle|][k] == hay[i + k];
    }
  }

  // Query "VAR" --------------------------------------------------------------

  lemma VarLowered()
    ensures ToLower("VAR") == "var"
  {
  }

  lemma VariablesMatchesVar()
    ensures Matches("VAR", NavItems[2])
  {
    VarLowered();
    assert ToLower("Variables") == "variables";
    assert OccursAt("variables", "var", 0);
  }

  lemma OnlyVariablesHasV(i: nat)
    requires i < |NavItems| && i != 2
    ensures 'v' !in ToLower(NavItems[i].name)
  {
  }

  lemma OthersMissVar(i: nat)
    requires i < |NavItems| && i != 2
    ensures !Matches("VAR", NavItems[i])
  {
    VarLowered();
    OnlyVariablesHasV(i);
    MissingChar(ToLower(NavItems[i].name), "var", 'v');
  }

  /** Searching "VAR" ignores case and lists the Variables lesson alone. */
  lemma SearchVar()
    ensures FilteredNavItems("VAR") == [NavItem("Variables", "/lesson-variables")]
  {
    var p := (item: NavItem) => Matches("VAR", item);
    var s := NavItems;
    VariablesMatchesVar();
    forall i | 0 <= i < 2
      ensures !p(s[..2][i])
    {
      OthersMissVar(i);
    }
    forall i | 0 <= i < |s| - 3
      ensures !p(s[3..][i])
    {
      OthersMissVar(i + 3);
    }
    Seqs.FilterKeepsNone(s[..2], p);
    Seqs.FilterKeepsNone(s[3..], p);
    assert s == s[..2] + ([s[2]] + s[3..]);
    Seqs.FilterAppend(s[..2], [s[2]] + s[3..], p);
  }

  /** With the results open, "VAR" shows one result, and choosing it goes
      to the lesson, highlights it and clears the search. */
  method ChooseVariables(nav: NavigationBar)
    modifies nav
    ensures nav.pathname == "/lesson-variables" && nav.IsActive(NavItems[2])
    ensures nav.Dropdown() == Hidden && nav.searchQuery == ""
  {
    nav.SetSearchQuery("VAR");
    nav.SearchFocus();
    SearchVar();
    var d := nav.Dropdown();
    assert d == Results([NavItem("Variables", "/lesson-variables")]);
    nav.SearchItemClick(d.items[0].path);
  }

  // Query "zzz" --------------------------------------------------------------

  lemma NoZ(i: nat)
    requires i < |NavItems|
    ensures 'z' !in ToLower(NavItems[i].name)
  {
  }

  lemma NothingMatchesZzz(i: nat)
    requires i < |NavItems|
    ensures !Matches("zzz", NavItems[i])
  {
    assert ToLower("zzz") == "zzz";
    NoZ(i);
    MissingChar(ToLower(NavItems[i].name), "zzz", 'z');
  }

  /** A query no page name contains lists nothing. */
  lemma SearchZzz()
    ensures FilteredNavItems("zzz") == []
  {
    var p := (item: NavItem) => Matches("zzz", item);
    forall i | 0 <= i < |NavItems|
      ensures !p(NavItems[i])
    {
      NothingMatchesZzz(i);
    }
    Seqs.FilterKeepsNone(NavItems, p);
  }

  /** With the results open, such a query shows "No lessons found". */
  lemma NoLessonsForZzz(nav: NavigationBar)
    requires nav.showSearchResults && nav.searchQuery == "zzz"
    ensures nav.Dropdown() == NoLessonsFound
  {
    SearchZzz();
    FilteredEmpty("zzz");
  }
}
