/**
 * The dashboard's sidebar (blingo/app/dashboards/layout.tsx): its navigation entries and
 * the rule that decides which of them is highlighted for the current path.
 */
module DashboardLayout {
  import opened Text

  datatype NavItem = NavItem(name: string, href: string)

  const OverviewHref: string := "/dashboards"

  /** The sidebar entries, in display order. */
  const NavItems: seq<NavItem> := [
    NavItem("Overview", OverviewHref),
    NavItem("Research Assistant", "/dashboards/assistant"),
    NavItem("Research Reports", "/dashboards/reports"),
    NavItem("API Playground", "/playground"),
    NavItem("Invoices", "/dashboards/invoices"),
    NavItem("Documentation", "/dashboards/docs")
  ]

  /**
   * isActive: the overview entry only on its own page; any other entry on every path that
   * starts with its link, character by character.
   */
  function IsActive(pathname: string, href: string): (r: bool)
    ensures href == OverviewHref ==> (r <==> pathname == OverviewHref)
    ensures href != OverviewHref ==> (r <==> |href| <= |pathname| && pathname[..|href|] == href)
  {
    if href == OverviewHref then pathname == OverviewHref else StartsWith(pathname, href)
  }

  /** The names of the highlighted entries, in display order. */
  function ActiveNames(pathname: string, items: seq<NavItem>): (r: seq<string>)
    ensures |r| <= |items|
    ensures forall n :: n in r ==> exists i :: 0 <= i < |items| && items[i].name == n && IsActive(pathname, items[i].href)
    ensures forall i :: 0 <= i < |items| && IsActive(pathname, items[i].href) ==> items[i].name in r
  {
    if items == [] then []
    else (if IsActive(pathname, items[0].href) then [items[0].name] else []) + ActiveNames(pathname, items[1..])
  }

  /** Extending the path keeps every non-overview entry that was highlighted highlighted. */
  lemma ActiveStaysOnLongerPaths(pathname: string, suffix: string, href: string)
    requires href != OverviewHref && IsActive(pathname, href)
    ensures IsActive(pathname + suffix, href)
  {
    assert (pathname + suffix)[..|href|] == pathname[..|href|];
  }

  /** On the reports page the reports entry is the only one highlighted; the overview entry is not. */
  lemma ReportsPageHighlightsReports()
    ensures ActiveNames("/dashboards/reports", NavItems) == ["Research Reports"]
  {
    var p := "/dashboards/reports";
    var items := NavItems;
    assert p[1] != items[3].href[1] && p[12] != items[5].href[12];
    assert p != OverviewHref by {
      assert |p| != |OverviewHref|;
    }
    assert IsActive(p, items[2].href) by {
      assert p[..|items[2].href|] == p;
    }
    assert ActiveNames(p, items[5..]) == [] by {
      assert items[5..][1..] == [];
    }
    assert ActiveNames(p, items[4..]) == [] by {
      assert items[4..][1..] == items[5..];
    }
    assert ActiveNames(p, items[3..]) == [] by {
      assert items[3..][1..] == items[4..];
    }
    assert ActiveNames(p, items[2..]) == ["Research Reports"] by {
      assert items[2..][1..] == items[3..];
    }
    assert ActiveNames(p, items[1..]) == ["Research Reports"] by {
      assert items[1..][1..] == items[2..];
    }
  }

  /** On the overview page only the overview entry is highlighted. */
  lemma OverviewPageHighlightsOnlyOverview()
    ensures ActiveNames(OverviewHref, NavItems) == ["Overview"]
  {
    var p := OverviewHref;
    assert p[1] != NavItems[3].href[1];
    var items := NavItems;
    assert ActiveNames(p, items[5..]) == [] by {
      assert items[5..][1..] == [];
    }
    assert ActiveNames(p, items[4..]) == [] by {
      assert items[4..][1..] == items[5..];
    }
    assert ActiveNames(p, items[3..]) == [] by {
      assert items[3..][1..] == items[4..];
    }
    assert ActiveNames(p, items[2..]) == [] by {
      assert items[2..][1..] == items[3..];
    }
    assert ActiveNames(p, items[1..]) == [] by {
      assert items[1..][1..] == items[2..];
    }
  }

  /** The prefix test is not word-aware: a path that merely begins with the docs link highlights it too. */
  lemma DocsPrefixIsCharacterLevel()
    ensures IsActive("/dashboards/docsX", NavItems[5].href)
  {
    ActiveStaysOnLongerPaths("/dashboards/docs", "X", "/dashboards/docs");
    assert "/dashboards/docs" + "X" == "/dashboards/docsX";
  }
}
