/** The navigation shell (src/components/Layout.jsx): route URLs, the navigation items, the
    active-item test and the class-name joiner. Icons and styling are not modelled. */
module Layout {
  import Strings

  /** `createPageUrl`: the dashboard lives at the root, every other page at `/<page>`. */
  function CreatePageUrl(page: string): (url: string)
    ensures page == "Dashboard" ==> url == "/"
    ensures page != "Dashboard" ==> |url| == |page| + 1 && url[0] == '/' && url[1..] == page
  {
    if page == "Dashboard" then "/" else "/" + page
  }

  /** Two pages share a URL only when they are the dashboard and the empty page name. */
  lemma CreatePageUrlCollision(p: string, q: string)
    requires p != q && CreatePageUrl(p) == CreatePageUrl(q)
    ensures (p == "Dashboard" && q == "") || (p == "" && q == "Dashboard")
  {
    if p == "Dashboard" {
      assert |CreatePageUrl(q)| == 1;
    } else {
      assert |CreatePageUrl(p)| == 1;
    }
  }

  datatype NavItem = NavItem(name: string, page: string)

  const NAV_ITEMS: seq<NavItem> := [
    NavItem("Dashboard", "Dashboard"),
    NavItem("Risk Map", "RiskMap"),
    NavItem("Zones", "Zones"),
    NavItem("Alerts", "Alerts"),
    NavItem("Safety", "FireSafety"),
    NavItem("Fire Depts", "FireDepartments"),
    NavItem("Health", "HealthImpact")
  ]

  /** The seven navigation items name seven different pages, reached at seven different URLs. */
  lemma NavItemsDistinct()
    ensures |NAV_ITEMS| == 7
    ensures forall i, j :: 0 <= i < j < |NAV_ITEMS| ==> NAV_ITEMS[i].page != NAV_ITEMS[j].page
    ensures forall i, j :: 0 <= i < j < |NAV_ITEMS| ==>
      CreatePageUrl(NAV_ITEMS[i].page) != CreatePageUrl(NAV_ITEMS[j].page)
  {
    forall i, j | 0 <= i < j < |NAV_ITEMS|
      ensures CreatePageUrl(NAV_ITEMS[i].page) != CreatePageUrl(NAV_ITEMS[j].page)
    {
      assert NAV_ITEMS[i].page != "" && NAV_ITEMS[j].page != "";
      if CreatePageUrl(NAV_ITEMS[i].page) == CreatePageUrl(NAV_ITEMS[j].page) {
        CreatePageUrlCollision(NAV_ITEMS[i].page, NAV_ITEMS[j].page);
      }
    }
  }

  /** `currentPageName === item.page`. */
  predicate IsActive(currentPageName: string, item: NavItem) {
    currentPageName == item.page
  }

  /** The positions of the highlighted items. */
  function ActiveItems(currentPageName: string): (r: set<nat>)
    ensures forall i: nat :: i in r <==> i < |NAV_ITEMS| && IsActive(currentPageName, NAV_ITEMS[i])
  {
    set i: nat | i < |NAV_ITEMS| && IsActive(currentPageName, NAV_ITEMS[i])
  }

  /** At most one item is highlighted, and exactly one when the current page is in the menu. */
  lemma AtMostOneActive(currentPageName: string)
    ensures |ActiveItems(currentPageName)| <= 1
    ensures |ActiveItems(currentPageName)| == 1 <==>
      exists i :: 0 <= i < |NAV_ITEMS| && NAV_ITEMS[i].page == currentPageName
  {
    NavItemsDistinct();
    var a := ActiveItems(currentPageName);
    if i :| i in a {
      assert a == {i};
    } else {
      assert a == {};
    }
  }

  /** An argument of `cn`: a string, or a falsy value such as `false`, `null` or `undefined`. */
  datatype ClassArg = Str(s: string) | Falsy

  /** `filter(Boolean)`: the non-empty strings, in order. */
  function Truthy(args: seq<ClassArg>): (r: seq<string>)
    ensures |r| <= |args|
    ensures forall i :: 0 <= i < |r| ==> r[i] != ""
    ensures forall s :: s in r <==> s != "" && Str(s) in args
  {
    if |args| == 0 then []
    else
      var rest := Truthy(args[1..]);
      assert forall a :: a in args <==> a == args[0] || a in args[1..];
      match args[0]
      case Str(s) => if s != "" then [s] + rest else rest
      case Falsy => rest
  }

  /** Filtering works argument by argument: the survivors of `a + b` are those of `a` followed
      by those of `b`, and a single argument survives exactly when it is a non-empty string. */
  lemma {:induction false} TruthyConcat(a: seq<ClassArg>, b: seq<ClassArg>)
    ensures Truthy(a + b) == Truthy(a) + Truthy(b)
    ensures |a| == 1 ==> Truthy(a) == if a[0].Str? && a[0].s != "" then [a[0].s] else []
  {
    if |a| > 0 {
      assert (a + b)[1..] == a[1..] + b;
      TruthyConcat(a[1..], b);
      assert |a| == 1 ==> a[1..] == [];
    } else {
      assert a + b == b;
    }
  }

  /** The class string of `cn(base, flag ? on : off)` as the navigation links use it: the two
      arguments joined by one space, whatever spaces they hold themselves. */
  lemma CnTwo(base: string, extra: string)
    requires base != "" && extra != ""
    ensures Cn([Str(base), Str(extra)]) == base + " " + extra
  {
    TruthyConcat([Str(base)], [Str(extra)]);
    assert [Str(base), Str(extra)] == [Str(base)] + [Str(extra)];
    TruthyConcat([Str(extra)], []);
    assert [Str(extra)] + [] == [Str(extra)];
    assert Truthy([Str(base), Str(extra)]) == [base, extra];
  }

  /** `cn(...classes)`: the truthy arguments joined with single spaces. */
  function Cn(args: seq<ClassArg>): string {
    Strings.Join(Truthy(args), " ")
  }

  /** Falsy arguments make no difference, wherever they stand. */
  lemma {:induction false} CnIgnoresFalsy(a: seq<ClassArg>, b: seq<ClassArg>)
    ensures Cn(a + [Falsy] + b) == Cn(a + b)
    ensures Cn(a + [Str("")] + b) == Cn(a + b)
  {
    TruthySkips(a, b, Falsy);
    TruthySkips(a, b, Str(""));
  }

  lemma {:induction false} TruthySkips(a: seq<ClassArg>, b: seq<ClassArg>, x: ClassArg)
    requires x == Falsy || x == Str("")
    ensures Truthy(a + [x] + b) == Truthy(a + b)
  {
    if |a| == 0 {
      assert a + [x] + b == [x] + b;
      assert ([x] + b)[1..] == b;
      assert a + b == b;
    } else {
      assert (a + [x] + b)[1..] == a[1..] + [x] + b;
      assert (a + b)[1..] == a[1..] + b;
      TruthySkips(a[1..], b, x);
    }
  }

  /** When no class name contains a space, splitting the result on spaces recovers exactly
      the truthy arguments; with none, the result is empty. */
  lemma CnSplits(args: seq<ClassArg>)
    requires forall i :: 0 <= i < |args| && args[i].Str? ==> ' ' !in args[i].s
    ensures Truthy(args) == [] ==> Cn(args) == ""
    ensures Truthy(args) != [] ==> Strings.Split(Cn(args), ' ') == Truthy(args)
  {
    var t := Truthy(args);
    if t != [] {
      forall i | 0 <= i < |t|
        ensures ' ' !in t[i]
      {
        assert t[i] in t;
        assert Str(t[i]) in args;
      }
      Strings.SplitJoin(t, ' ');
    }
  }
}
