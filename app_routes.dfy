/**
 * The route table of `App.tsx`: `/login` outside the layout, five guarded pages under
 * `/`, an index redirect to `/dashboard` and a catch-all redirect to `/`.
 */
module AppRoutes {
  import opened Wrappers
  import MainLayout
  import Text

  /** What ends up on screen: the login page, or a page inside the main layout. */
  datatype Screen = LoginScreen | Layout(page: MainLayout.Page)

  /** What a route renders: a screen, or a `<Navigate>` to another path. */
  datatype Element = Show(screen: Screen) | Navigate(to: string)

  const DetailPrefix := "/products/"

  /**
   * `path` without its trailing slashes. React Router v6 lets any number of slashes
   * follow a pattern, so "/products/" and "/products//" match "products".
   */
  function TrimSlashes(path: string): (t: string)
    ensures t <= path && (t == [] || t[|t| - 1] != '/')
    ensures forall i :: |t| <= i < |path| ==> path[i] == '/'
  {
    if path != [] && path[|path| - 1] == '/' then TrimSlashes(path[..|path| - 1]) else path
  }

  /**
   * The path as the route patterns see it: trailing slashes dropped and ASCII letters
   * lower-cased, since no route sets `caseSensitive` and the patterns are ASCII.
   */
  function Folded(path: string): string
  {
    Text.Lower(TrimSlashes(path))
  }

  /**
   * The child route of the layout a path matches, if any. The fixed segments compare
   * ignoring ASCII case, `products/:id` takes one non-empty segment and keeps its text
   * as written, and trailing slashes are ignored.
   */
  function ChildOf(path: string): (child: Option<MainLayout.Page>)
    ensures child.Some? ==> TrimSlashes(path) != "" && Folded(path) != "/login"
    ensures child.Some? && child.value.ProductDetailPage? ==>
      && |TrimSlashes(path)| > |DetailPrefix| && Folded(path)[..|DetailPrefix|] == DetailPrefix
      && TrimSlashes(path)[|DetailPrefix|..] == child.value.id && '/' !in child.value.id
  {
    MatchTrimmed(TrimSlashes(path))
  }

  /** The child route matched by a path whose trailing slashes are already dropped. */
  function MatchTrimmed(t: string): (child: Option<MainLayout.Page>)
    ensures child.Some? ==> t != "" && Text.Lower(t) != "/login"
    ensures child.Some? && child.value.ProductDetailPage? ==>
      && |t| > |DetailPrefix| && Text.Lower(t)[..|DetailPrefix|] == DetailPrefix
      && t[|DetailPrefix|..] == child.value.id && '/' !in child.value.id
  {
    var folded := Text.Lower(t);
    assert |folded| == |t|;
    if |folded| <= |"/login"| then None
    else if folded == "/dashboard" then Some(MainLayout.DashboardPage)
    else if folded == "/products" then Some(MainLayout.ProductsPage)
    else if folded == "/demand-forecast" then Some(MainLayout.DemandForecastPage)
    else if folded == "/price-optimization" then Some(MainLayout.PriceOptimizationPage)
    else if |t| > |DetailPrefix| && folded[..|DetailPrefix|] == DetailPrefix && '/' !in t[|DetailPrefix|..] then
      Some(MainLayout.ProductDetailPage(t[|DetailPrefix|..]))
    else None
  }

  /** The element the router renders for `path`; the layout's guard runs before its children. */
  function Route(path: string, isAuthenticated: bool): (e: Element)
    ensures Folded(path) == "/login" ==> e == if isAuthenticated then Navigate("/dashboard") else Show(LoginScreen)
    ensures TrimSlashes(path) == "" ==> e == if isAuthenticated then Navigate("/dashboard") else Navigate("/login")
    ensures ChildOf(path).Some? ==> e == if isAuthenticated then Show(Layout(ChildOf(path).value)) else Navigate("/login")
    ensures Folded(path) != "/login" && TrimSlashes(path) != "" && ChildOf(path).None? ==> e == Navigate("/")
  {
    RouteTrimmed(TrimSlashes(path), isAuthenticated)
  }

  /** The element rendered for a path whose trailing slashes are already dropped. */
  function RouteTrimmed(t: string, isAuthenticated: bool): (e: Element)
    ensures Text.Lower(t) == "/login" ==> e == if isAuthenticated then Navigate("/dashboard") else Show(LoginScreen)
    ensures t == "" ==> e == if isAuthenticated then Navigate("/dashboard") else Navigate("/login")
    ensures MatchTrimmed(t).Some? ==>
      e == if isAuthenticated then Show(Layout(MatchTrimmed(t).value)) else Navigate("/login")
    ensures Text.Lower(t) != "/login" && t != "" && MatchTrimmed(t).None? ==> e == Navigate("/")
  {
    if Text.Lower(t) == "/login" then
      if isAuthenticated then Navigate("/dashboard") else Show(LoginScreen)
    else if t == "" then
      match MainLayout.Guard(isAuthenticated, MainLayout.DashboardPage)
      case RedirectTo(to) => Navigate(to)
      case Framed(_) => Navigate("/dashboard")
    else if MatchTrimmed(t).Some? then
      match MainLayout.Guard(isAuthenticated, MatchTrimmed(t).value)
      case RedirectTo(to) => Navigate(to)
      case Framed(page) => Show(Layout(page))
    else Navigate("/")
  }

  /** The targets of the redirects match their routes as written. */
  lemma RedirectTargets()
    ensures TrimSlashes("/") == ""
    ensures TrimSlashes("/login") == "/login" && Folded("/login") == "/login"
    ensures TrimSlashes("/dashboard") == "/dashboard" && Folded("/dashboard") == "/dashboard"
  {
    RootTrimmed();
    LoginFolded();
    DashboardFolded();
  }

  lemma RootTrimmed()
    ensures TrimSlashes("/") == ""
  {
    assert "/"[..0] == "";
  }

  lemma LoginFolded()
    ensures TrimSlashes("/login") == "/login" && Folded("/login") == "/login"
  {
    Text.LowerOfLowerCase("/login");
  }

  lemma DashboardFolded()
    ensures TrimSlashes("/dashboard") == "/dashboard" && Folded("/dashboard") == "/dashboard"
  {
    Text.LowerOfLowerCase("/dashboard");
  }

  /** A trailing slash changes neither the route a path matches nor what it renders. */
  lemma TrailingSlashIgnored(path: string, isAuthenticated: bool)
    ensures ChildOf(path + "/") == ChildOf(path)
    ensures Route(path + "/", isAuthenticated) == Route(path, isAuthenticated)
  {
    assert (path + "/")[..|path + "/"| - 1] == path;
    assert TrimSlashes(path + "/") == TrimSlashes(path);
  }

  /** A path not ending in `/` is its own trimmed form, and so is what one more slash trims to. */
  lemma TrimOneSlash(t: string)
    requires t == [] || t[|t| - 1] != '/'
    ensures TrimSlashes(t) == t && TrimSlashes(t + "/") == t
  {
    assert (t + "/")[..|t|] == t;
  }

  /** "/products/" shows the product list, as "/products" does. */
  lemma ProductsWithSlash()
    ensures ChildOf("/products/") == Some(MainLayout.ProductsPage)
  {
    TrimOneSlash("/products");
    Text.LowerOfLowerCase("/products");
    assert "/products" + "/" == "/products/";
    assert Folded("/products/") == "/products";
  }

  /** "/Products" shows the product list: no route is case-sensitive. */
  lemma ProductsAnyCase()
    ensures ChildOf("/Products") == Some(MainLayout.ProductsPage)
  {
    TrimOneSlash("/Products");
    assert forall i :: 0 <= i < |"/Products"| ==> Text.Lower("/Products")[i] == "/products"[i];
    assert Folded("/Products") == "/products";
  }

  /** The trimmed and folded forms of a path are known: `t` and, lower-cased, `folded`. */
  lemma Forms(path: string, t: string, folded: string)
    requires t == [] || t[|t| - 1] != '/'
    requires path == t || path == t + "/"
    requires |folded| == |t| && forall i :: 0 <= i < |t| ==> Text.LowerChar(t[i]) == folded[i]
    ensures TrimSlashes(path) == t && Folded(path) == folded
  {
    TrimOneSlash(t);
  }

  /** "/products/5/" shows product "5". */
  lemma DetailWithSlash()
    ensures ChildOf("/products/5/") == Some(MainLayout.ProductDetailPage("5"))
  {
    SlashedDetailForms();
    DetailRoute("/products/5/", "/products/5", "/products/5");
  }

  lemma SlashedDetailForms()
    ensures TrimSlashes("/products/5/") == "/products/5" && Folded("/products/5/") == "/products/5"
    ensures "/products/5"[..|DetailPrefix|] == DetailPrefix && "/products/5"[|DetailPrefix|..] == "5"
  {
    TrimOneSlash("/products/5");
    assert "/products/5" + "/" == "/products/5/";
    Text.LowerOfLowerCase("/products/5");
  }

  /** A path whose folded form starts with "/products/" and has one more segment shows that product. */
  lemma DetailRoute(path: string, t: string, folded: string)
    requires TrimSlashes(path) == t && Folded(path) == folded
    requires |t| > |DetailPrefix| && folded[..|DetailPrefix|] == DetailPrefix && '/' !in t[|DetailPrefix|..]
    requires folded != "/dashboard" && folded != "/products" && folded != "/demand-forecast"
    requires folded != "/price-optimization"
    ensures ChildOf(path) == Some(MainLayout.ProductDetailPage(t[|DetailPrefix|..]))
  {
  }

  lemma MixedCaseForms()
    ensures TrimSlashes("/Products/AbC") == "/Products/AbC" && Folded("/Products/AbC") == "/products/abc"
  {
    Forms("/Products/AbC", "/Products/AbC", "/products/abc");
  }

  lemma MixedCaseSegments()
    ensures "/products/abc"[..|DetailPrefix|] == DetailPrefix && "/Products/AbC"[|DetailPrefix|..] == "AbC"
    ensures '/' !in "AbC"
  {
  }

  /** "/Products/AbC" shows product "AbC": the id keeps its case. */
  lemma DetailAnyCase()
    ensures ChildOf("/Products/AbC") == Some(MainLayout.ProductDetailPage("AbC"))
  {
    MixedCaseForms();
    MixedCaseSegments();
    DetailRoute("/Products/AbC", "/Products/AbC", "/products/abc");
  }

  /** An empty segment is no id: "/products//5" matches no page. */
  lemma EmptySegmentUnmatched()
    ensures ChildOf("/products//5") == None
  {
    var t := "/products//5";
    TrimOneSlash(t);
    Text.LowerOfLowerCase(t);
    assert t[|DetailPrefix|..][0] == '/';
    assert t != "/dashboard" && t != "/products" && t != "/demand-forecast" && t != "/price-optimization";
  }

  /** Follows redirects, at most `fuel` of them: the screen reached and how many redirects it took. */
  function Follow(path: string, isAuthenticated: bool, fuel: nat): (r: Option<(Screen, nat)>)
    ensures r.Some? ==> r.value.1 <= fuel
    decreases fuel
  {
    match Route(path, isAuthenticated)
    case Show(screen) => Some((screen, 0))
    case Navigate(to) =>
      if fuel == 0 then None
      else
        match Follow(to, isAuthenticated, fuel - 1)
        case None => None
        case Some((screen, k)) => Some((screen, k + 1))
  }

  /**
   * Every path comes to rest within two redirects: on the login page when signed out,
   * and when signed in on the requested page, or on the dashboard for `/`, `/login`
   * and unmatched paths.
   */
  lemma EveryPathSettles(path: string, isAuthenticated: bool)
    ensures Follow(path, isAuthenticated, 2).Some?
    ensures !isAuthenticated ==> Follow(path, isAuthenticated, 2).value.0 == LoginScreen
    ensures isAuthenticated ==>
              Follow(path, isAuthenticated, 2).value.0 ==
                (if ChildOf(path).Some? then Layout(ChildOf(path).value) else Layout(MainLayout.DashboardPage))
  {
    TargetsSettle(isAuthenticated);
    var e := Route(path, isAuthenticated);
    if e.Show? {
      SettlesShown(path, isAuthenticated);
    } else {
      assert e.to == "/login" || e.to == "/dashboard" || e.to == "/";
      SettlesRedirected(path, isAuthenticated);
    }
  }

  /** A path its route shows settles at once. */
  lemma SettlesShown(path: string, isAuthenticated: bool)
    requires Route(path, isAuthenticated).Show?
    ensures Follow(path, isAuthenticated, 2) == Some((Route(path, isAuthenticated).screen, 0))
  {
  }

  /** A redirect settles one step after its target does. */
  lemma SettlesRedirected(path: string, isAuthenticated: bool)
    requires Route(path, isAuthenticated).Navigate?
    requires Follow(Route(path, isAuthenticated).to, isAuthenticated, 1).Some?
    ensures Follow(path, isAuthenticated, 2).Some?
    ensures Follow(path, isAuthenticated, 2).value.0 == Follow(Route(path, isAuthenticated).to, isAuthenticated, 1).value.0
  {
  }

  /** Where the three redirect targets lead, for either sign-in state. */
  lemma TargetsSettle(isAuthenticated: bool)
    ensures Follow("/login", isAuthenticated, 1).Some? && Follow("/dashboard", isAuthenticated, 1).Some?
    ensures Follow("/", isAuthenticated, 1).Some?
    ensures !isAuthenticated ==>
      && Follow("/login", false, 1).value.0 == LoginScreen
      && Follow("/dashboard", false, 1).value.0 == LoginScreen
      && Follow("/", false, 1).value.0 == LoginScreen
    ensures isAuthenticated ==>
      && Follow("/login", true, 1).value.0 == Layout(MainLayout.DashboardPage)
      && Follow("/dashboard", true, 1).value.0 == Layout(MainLayout.DashboardPage)
      && Follow("/", true, 1).value.0 == Layout(MainLayout.DashboardPage)
  {
    LoginSettles(isAuthenticated);
    DashboardSettles(isAuthenticated);
    RootSettles(isAuthenticated);
  }

  /** "/login" shows the sign-in form when signed out and leads to the dashboard when signed in. */
  lemma LoginSettles(isAuthenticated: bool)
    ensures Follow("/login", isAuthenticated, 1).Some?
    ensures Follow("/login", isAuthenticated, 1).value.0 ==
              if isAuthenticated then Layout(MainLayout.DashboardPage) else LoginScreen
  {
    LoginShown();
    DashboardShown();
    if isAuthenticated {
      SettlesInOne("/login", true);
    } else {
      SettlesAtOnce("/login", false);
    }
  }

  /** "/dashboard" shows the dashboard when signed in and leads to the sign-in form when signed out. */
  lemma DashboardSettles(isAuthenticated: bool)
    ensures Follow("/dashboard", isAuthenticated, 1).Some?
    ensures Follow("/dashboard", isAuthenticated, 1).value.0 ==
              if isAuthenticated then Layout(MainLayout.DashboardPage) else LoginScreen
  {
    LoginShown();
    DashboardShown();
    if isAuthenticated {
      SettlesAtOnce("/dashboard", true);
    } else {
      SettlesInOne("/dashboard", false);
    }
  }

  /** "/" leads to the dashboard or to the sign-in form in one redirect. */
  lemma RootSettles(isAuthenticated: bool)
    ensures Follow("/", isAuthenticated, 1).Some?
    ensures Follow("/", isAuthenticated, 1).value.0 ==
              if isAuthenticated then Layout(MainLayout.DashboardPage) else LoginScreen
  {
    RootTrimmed();
    LoginShown();
    DashboardShown();
    SettlesInOne("/", isAuthenticated);
  }

  /** A path its route shows settles with fuel to spare. */
  lemma SettlesAtOnce(path: string, isAuthenticated: bool)
    requires Route(path, isAuthenticated).Show?
    ensures Follow(path, isAuthenticated, 1) == Some((Route(path, isAuthenticated).screen, 0))
  {
  }

  /** A path redirected to a shown path settles after one redirect. */
  lemma SettlesInOne(path: string, isAuthenticated: bool)
    requires Route(path, isAuthenticated).Navigate?
    requires Route(Route(path, isAuthenticated).to, isAuthenticated).Show?
    ensures Follow(path, isAuthenticated, 1) ==
              Some((Route(Route(path, isAuthenticated).to, isAuthenticated).screen, 1))
  {
  }

  /** Signed in, "/dashboard" is shown; signed out, it redirects to "/login". */
  lemma DashboardShown()
    ensures Route("/dashboard", true) == Show(Layout(MainLayout.DashboardPage))
    ensures Route("/dashboard", false) == Navigate("/login")
  {
    DashboardFolded();
    assert ChildOf("/dashboard") == Some(MainLayout.DashboardPage);
  }

  /** Signed out, "/login" is shown; signed in, it redirects to "/dashboard". */
  lemma LoginShown()
    ensures Route("/login", false) == Show(LoginScreen)
    ensures Route("/login", true) == Navigate("/dashboard")
  {
    LoginFolded();
  }
}
