/** The sidebar: which sections are expanded, the navigation search, and which links are
    highlighted for the current path. */
module Sidebar {
  import opened Wrappers
  import opened Text
  import opened Helpers

  datatype NavLink = NavLink(name: string, href: string)

  datatype NavItem = NavItem(name: string, href: string, badge: Option<int>, children: Option<seq<NavLink>>)

  const Navigation: seq<NavItem> := [
    NavItem("Home", "/", None, None),
    NavItem("Dashboard", "/dashboard", None, None),
    NavItem("Cases", "/cases", None, Some([
      NavLink("All Cases", "/cases"),
      NavLink("Create Case", "/cases/create"),
      NavLink("AML Cases", "/cases?type=AML"),
      NavLink("Fraud Cases", "/cases?type=FRAUD"),
      NavLink("Sanctions", "/cases?type=SANCTIONS")])),
    NavItem("Tasks", "/tasks", Some(5), None),
    NavItem("Users", "/users", None, None),
    NavItem("Notifications", "/notifications", Some(3), None),
    NavItem("Settings", "/settings", None, None)]

  // ---- toggleExpanded ----

  /** `names.filter(n => n !== name)`. */
  function Without(names: seq<string>, name: string): (r: seq<string>)
    ensures name !in r
    ensures forall n :: n != name ==> (n in r <==> n in names)
    ensures |r| <= |names|
  {
    if names == [] then []
    else (if names[0] == name then [] else [names[0]]) + Without(names[1..], name)
  }

  /** Drops a name that is present (every occurrence), appends one that is not. */
  function Toggle(names: seq<string>, name: string): seq<string> {
    if name in names then Without(names, name) else names + [name]
  }

  lemma {:induction false} WithoutAbsent(names: seq<string>, name: string)
    requires name !in names
    ensures Without(names, name) == names
    decreases |names|
  {
    if names != [] {
      WithoutAbsent(names[1..], name);
      assert names == [names[0]] + names[1..];
    }
  }

  lemma {:induction false} WithoutKeepsOrder(names: seq<string>, name: string)
    ensures IsSubsequence(Without(names, name), names)
    decreases |names|
  {
    if names != [] {
      WithoutKeepsOrder(names[1..], name);
      var rest := Without(names[1..], name);
      if names[0] != name {
        assert Without(names, name) == [names[0]] + rest;
        assert ([names[0]] + rest)[1..] == rest;
      } else {
        assert Without(names, name) == rest;
      }
    }
  }

  /** The toggled name flips membership, every other name keeps it, and the names that stay
      keep their relative order. */
  lemma ToggleSpec(names: seq<string>, name: string)
    ensures name in Toggle(names, name) <==> name !in names
    ensures forall n :: n != name ==> (n in Toggle(names, name) <==> n in names)
    ensures name in names ==> IsSubsequence(Toggle(names, name), names)
    ensures name !in names ==> Toggle(names, name)[..|names|] == names
  {
    if name in names {
      WithoutKeepsOrder(names, name);
    }
  }

  /** Toggling an absent name twice restores the list. */
  lemma ToggleTwice(names: seq<string>, name: string)
    requires name !in names
    ensures Toggle(Toggle(names, name), name) == names
  {
    WithoutAbsent(names, name);
    WithoutAppend(names, name);
  }

  lemma {:induction false} WithoutAppend(names: seq<string>, name: string)
    ensures Without(names + [name], name) == Without(names, name)
    decreases |names|
  {
    if names == [] {
      assert [] + [name] == [name];
      assert [name][1..] == [];
    } else {
      assert (names + [name])[1..] == names[1..] + [name];
      WithoutAppend(names[1..], name);
    }
  }

  // ---- filteredNavigation ----

  /** Case-insensitive `includes`. */
  predicate MatchesQuery(name: string, query: string) {
    Contains(ToLower(name), ToLower(query))
  }

  predicate ItemMatches(item: NavItem, query: string) {
    MatchesQuery(item.name, query) ||
    (item.children.Some? && exists i :: 0 <= i < |item.children.value| && MatchesQuery(item.children.value[i].name, query))
  }

  function FilterNavigation(items: seq<NavItem>, query: string): (r: seq<NavItem>)
    ensures forall x :: x in r <==> x in items && ItemMatches(x, query)
    ensures |r| <= |items|
  {
    if items == [] then []
    else (if ItemMatches(items[0], query) then [items[0]] else []) + FilterNavigation(items[1..], query)
  }

  lemma {:induction false} FilterKeepsOrder(items: seq<NavItem>, query: string)
    ensures IsSubsequence(FilterNavigation(items, query), items)
    decreases |items|
  {
    if items != [] {
      FilterKeepsOrder(items[1..], query);
      var rest := FilterNavigation(items[1..], query);
      if ItemMatches(items[0], query) {
        assert FilterNavigation(items, query) == [items[0]] + rest;
        assert ([items[0]] + rest)[1..] == rest;
      } else {
        assert FilterNavigation(items, query) == rest;
      }
    }
  }

  /** An empty query keeps every item, in order. */
  lemma {:induction false} EmptyQueryKeepsAll(items: seq<NavItem>)
    ensures FilterNavigation(items, "") == items
    decreases |items|
  {
    if items != [] {
      ContainsEmpty(ToLower(items[0].name));
      assert ToLower("") == "";
      EmptyQueryKeepsAll(items[1..]);
      assert items == [items[0]] + items[1..];
    }
  }

  // ---- isCurrentPath ----

  /** The home link is current only on `/`; any other link on every path it prefixes. */
  predicate IsCurrentPath(pathname: string, href: string) {
    if href == "/" then pathname == "/" else StartsWith(pathname, href)
  }

  /** A link whose href carries a query string is never current, since a path name has
      none. */
  lemma QueryLinksNeverCurrent(pathname: string, href: string)
    requires '?' in href && '?' !in pathname
    ensures !IsCurrentPath(pathname, href)
  {
  }

  /** The home link is current only on `/` itself; "Cases" is current on all its sub-pages. */
  lemma CasesHighlightedOnSubPages(rest: string)
    ensures IsCurrentPath("/cases" + rest, "/cases")
    ensures IsCurrentPath("/", "/") && (rest != "" ==> !IsCurrentPath("/" + rest, "/"))
  {
    assert ("/cases" + rest)[..|"/cases"|] == "/cases";
  }

  /** The sidebar's state fields. */
  class SidebarState {
    var expandedItems: seq<string>
    var searchQuery: string

    constructor ()
      ensures expandedItems == ["Cases"] && searchQuery == ""
    {
      expandedItems := ["Cases"];
      searchQuery := "";
    }

    method ToggleExpanded(name: string)
      modifies this
      ensures expandedItems == Toggle(old(expandedItems), name)
      ensures searchQuery == old(searchQuery)
    {
      if name in expandedItems {
        expandedItems := Without(expandedItems, name);
      } else {
        expandedItems := expandedItems + [name];
      }
    }

    method SetSearchQuery(query: string)
      modifies this
      ensures searchQuery == query && expandedItems == old(expandedItems)
    {
      searchQuery := query;
    }
  }
}
