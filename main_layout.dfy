/** The authentication guard of `layouts/MainLayout.tsx`, wrapped around every page but the login page. */
module MainLayout {

  datatype Page = DashboardPage | ProductsPage | ProductDetailPage(id: string) | DemandForecastPage | PriceOptimizationPage

  /** What the layout renders: a redirect, or the child page inside the Sidebar/Navbar frame. */
  datatype Outcome = RedirectTo(path: string) | Framed(child: Page)

  /** The guard reads nothing but `isAuthenticated`. */
  function Guard(isAuthenticated: bool, child: Page): (o: Outcome)
    ensures !isAuthenticated ==> o == RedirectTo("/login")
    ensures isAuthenticated ==> o == Framed(child)
  {
    if !isAuthenticated then RedirectTo("/login") else Framed(child)
  }
}
