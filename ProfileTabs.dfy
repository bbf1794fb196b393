/**
 * Tab resolution of the profile chrome: `getActiveTab` in
 * src/components/layout/ProfileSidebar.jsx and, identically, in
 * src/components/layout/ProfileHeader.jsx, and the per-item highlight test
 * `currentTab === item.id` over the sidebar's `navItems` and the header's `tabs`.
 */
module ProfileTabs {
  import opened Wrappers
  import JsText

  /** One navigation entry: label, link target and tab id. */
  datatype NavItem = NavItem(name: string, href: string, id: string)

  /** The sidebar's `navItems`. */
  const NavItems: seq<NavItem> := [
    NavItem("Mis Datos", "/profile", "datos"),
    NavItem("Mis Clientes", "/profile/clientes", "clientes"),
    NavItem("Mis Productos", "/profile/productos", "productos")
  ]

  /** The header's `tabs`. */
  const HeaderTabs: seq<NavItem> := [
    NavItem("Mis Datos", "/profile", "datos"),
    NavItem("Mis Clientes", "/profile/clientes", "clientes"),
    NavItem("Mis Productos", "/profile/productos", "productos")
  ]

  /** The `activeTab` prop counts only when truthy: present and not the empty string. */
  predicate TabGiven(activeTab: Option<string>) {
    activeTab.Some? && activeTab.value != ""
  }

  /**
   * `getActiveTab`: the prop when truthy; otherwise "clientes" if the path mentions it,
   * then "productos", and "datos" by default.
   */
  function GetActiveTab(activeTab: Option<string>, pathname: string): (r: string)
    ensures TabGiven(activeTab) ==> r == activeTab.value
    ensures !TabGiven(activeTab) ==> r in {"datos", "clientes", "productos"}
    ensures !TabGiven(activeTab) ==> (r == "clientes" <==> JsText.Includes(pathname, "clientes"))
    ensures !TabGiven(activeTab) ==>
      (r == "productos" <==> !JsText.Includes(pathname, "clientes") && JsText.Includes(pathname, "productos"))
  {
    if TabGiven(activeTab) then activeTab.value
    else if JsText.Includes(pathname, "clientes") then "clientes"
    else if JsText.Includes(pathname, "productos") then "productos"
    else "datos"
  }

  /** `isActive`: the item's id is the current tab. */
  predicate IsActive(item: NavItem, currentTab: string) {
    currentTab == item.id
  }

  /** The positions of the items that are highlighted. */
  function ActiveIndices(items: seq<NavItem>, currentTab: string): set<int> {
    set i | 0 <= i < |items| && IsActive(items[i], currentTab)
  }

  /** The ids of a list of items are pairwise different. */
  predicate DistinctIds(items: seq<NavItem>) {
    forall i, j :: 0 <= i < j < |items| ==> items[i].id != items[j].id
  }

  /** With distinct ids at most one item is highlighted, and exactly one when the tab is some item's id. */
  lemma AtMostOneActive(items: seq<NavItem>, currentTab: string)
    requires DistinctIds(items)
    ensures |ActiveIndices(items, currentTab)| <= 1
    ensures (exists i :: 0 <= i < |items| && items[i].id == currentTab) ==> |ActiveIndices(items, currentTab)| == 1
  {
    var act := ActiveIndices(items, currentTab);
    if exists i :: 0 <= i < |items| && items[i].id == currentTab {
      var i :| 0 <= i < |items| && items[i].id == currentTab;
      assert i in act;
    }
    if act != {} {
      var k :| k in act;
      assert act == {k} by {
        forall j | j in act ensures j == k {
          assert items[j].id == items[k].id;
        }
      }
    }
  }

  /**
   * In the sidebar, when no tab is passed, exactly one item is highlighted, whatever the
   * path: the resolved tab is always one of the three ids.
   */
  lemma SidebarHighlightsOne(activeTab: Option<string>, pathname: string)
    requires !TabGiven(activeTab)
    ensures |ActiveIndices(NavItems, GetActiveTab(activeTab, pathname))| == 1
  {
    var t := GetActiveTab(activeTab, pathname);
    assert NavItems[0].id == "datos" && NavItems[1].id == "clientes" && NavItems[2].id == "productos";
    assert exists i :: 0 <= i < |NavItems| && NavItems[i].id == t;
    AtMostOneActive(NavItems, t);
  }

  /** In the header, exactly one tab is highlighted when the current tab is one of the three ids. */
  lemma HeaderHighlightsOne(currentTab: string)
    requires currentTab in {"datos", "clientes", "productos"}
    ensures |ActiveIndices(HeaderTabs, currentTab)| == 1
  {
    assert HeaderTabs[0].id == "datos" && HeaderTabs[1].id == "clientes" && HeaderTabs[2].id == "productos";
    assert exists i :: 0 <= i < |HeaderTabs| && HeaderTabs[i].id == currentTab;
    AtMostOneActive(HeaderTabs, currentTab);
  }

  /** The path checks give "clientes" precedence: a path naming both products and clients resolves to clients. */
  lemma ClientesBeforeProductos(pathname: string)
    requires JsText.Includes(pathname, "clientes") && JsText.Includes(pathname, "productos")
    ensures GetActiveTab(None, pathname) == "clientes"
    ensures GetActiveTab(Some(""), pathname) == "clientes"
  {
  }

  /** The empty-string prop falls through to the path checks; the bare profile path gives "datos". */
  lemma EmptyTabFallsThrough(pathname: string)
    ensures GetActiveTab(Some(""), pathname) == GetActiveTab(None, pathname)
    ensures GetActiveTab(None, "/profile") == "datos"
  {
    assert !JsText.Includes("/profile", "clientes") by {
      assert "/profile"[0..8][0] != "clientes"[0];
    }
    JsText.IncludesNotLonger("/profile", "productos");
  }
}
