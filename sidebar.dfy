/** The navigation entries `components/common/Sidebar.tsx` shows for the signed-in user. */
module Sidebar {
  import opened Wrappers
  import opened Json

  /** `user?.profile?.user_type`; None is undefined. */
  function UserType(user: Json): (t: Option<Json>)
    ensures t.Some? ==> Get(user, "profile").Some?
  {
    match Get(user, "profile")
    case None => None
    case Some(profile) => Get(profile, "user_type")
  }

  /** `user?.profile?.user_type === role`: strict equality, so only that exact string matches. */
  predicate HasRole(user: Json, role: string)
  {
    UserType(user) == Some(JStr(role))
  }

  datatype MenuItem = Dashboard | Products | DemandForecast | PriceOptimization | UserManagement

  /** The link target of each entry. */
  function Target(item: MenuItem): string
  {
    match item
    case Dashboard => "/dashboard"
    case Products => "/products"
    case DemandForecast => "/demand-forecast"
    case PriceOptimization => "/price-optimization"
    case UserManagement => "/users"
  }

  /** The entries shown, top to bottom. */
  function Menu(user: Json): (items: seq<MenuItem>)
    ensures |items| >= 2 && items[0] == Dashboard && items[1] == Products
    ensures DemandForecast in items <==> HasRole(user, "admin") || HasRole(user, "analyst") || HasRole(user, "buyer")
    ensures PriceOptimization in items <==> HasRole(user, "admin") || HasRole(user, "analyst")
    ensures UserManagement in items <==> HasRole(user, "admin")
  {
    var isAdmin := HasRole(user, "admin");
    var isAnalyst := HasRole(user, "analyst");
    var isBuyer := HasRole(user, "buyer");
    var canViewPricing := isAdmin || isAnalyst || isBuyer;
    [Dashboard, Products]
      + (if canViewPricing then [DemandForecast] else [])
      + (if canViewPricing && !isBuyer then [PriceOptimization] else [])
      + (if isAdmin then [UserManagement] else [])
  }

  /**
   * Visibility nests: User Management implies Price Optimization implies Demand
   * Forecast; a supplier, or a user without profile, sees the two fixed entries only.
   */
  lemma MenuNests(user: Json)
    ensures UserManagement in Menu(user) ==> PriceOptimization in Menu(user)
    ensures PriceOptimization in Menu(user) ==> DemandForecast in Menu(user)
    ensures HasRole(user, "supplier") || Get(user, "profile").None? ==> Menu(user) == [Dashboard, Products]
  {
    if HasRole(user, "supplier") || Get(user, "profile").None? {
      assert !HasRole(user, "admin") && !HasRole(user, "analyst") && !HasRole(user, "buyer");
    }
  }
}
