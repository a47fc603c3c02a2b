/**
 * The DRF permission classes of the pricing API (`api/permissions.py`) and the
 * `|` composition the views use. The role checks read `request.user.profile`
 * without a fallback, so for a user with no profile they raise instead of
 * answering; that is the `Err` of `Check`.
 */
module Permissions {
  import opened Wrappers
  import opened Accounts

  /** `RelatedObjectDoesNotExist`, raised by `user.profile` when there is no profile. */
  datatype NoProfile = NoProfile

  type Check = Result<bool, NoProfile>

  /** `request.user.profile.user_type == role`. */
  function HasRole(u: User, role: string): (r: Check)
    ensures r.Err? <==> u.profile.None?
    ensures r.Ok? ==> (r.value <==> u.profile.value.userType == role)
  {
    match u.profile
    case None => Err(NoProfile)
    case Some(p) => Ok(p.userType == role)
  }

  function IsAdmin(u: User): Check { HasRole(u, "admin") }
  function IsBuyer(u: User): Check { HasRole(u, "buyer") }
  function IsSupplier(u: User): Check { HasRole(u, "supplier") }
  function IsAnalyst(u: User): Check { HasRole(u, "analyst") }

  /** The number of the four role checks that grant access. */
  function RolesHeld(u: User): (n: nat)
  {
    (if IsAdmin(u) == Ok(true) then 1 else 0) + (if IsBuyer(u) == Ok(true) then 1 else 0)
    + (if IsSupplier(u) == Ok(true) then 1 else 0) + (if IsAnalyst(u) == Ok(true) then 1 else 0)
  }

  /** No user passes two role checks; a user with one of the four profile types passes exactly one. */
  lemma AtMostOneRole(u: User)
    ensures RolesHeld(u) <= 1
    ensures RolesHeld(u) == 1 <==>
      u.profile.Some? && u.profile.value.userType in {"admin", "buyer", "supplier", "analyst"}
  {
  }

  /**
   * DRF's `first | second`: Python's `or` on the two answers, so an exception of
   * the first check propagates and a grant by the first check skips the second.
   */
  function Either(first: Check, second: Check): (r: Check)
    ensures first.Err? ==> r == first
    ensures first == Ok(true) ==> r == Ok(true)
    ensures first == Ok(false) ==> r == second
  {
    match first
    case Err(e) => Err(e)
    case Ok(b) => if b then Ok(true) else second
  }

  /** `IsAdmin | IsAnalyst` lets in exactly admins and analysts, and raises without a profile. */
  lemma AdminOrAnalyst(u: User)
    ensures Either(IsAdmin(u), IsAnalyst(u)).Err? <==> u.profile.None?
    ensures Either(IsAdmin(u), IsAnalyst(u)) == Ok(true) <==>
      u.profile.Some? && u.profile.value.userType in {"admin", "analyst"}
  {
  }

  /** A passing `IsAdmin` check is the view-level admin guard, and the other way round. */
  lemma IsAdminMatchesGuard(u: User)
    ensures IsAdmin(u) == Ok(true) <==> IsAdminAccount(u)
  {
  }

  /** `has_perm` names a permission by the app label, a dot, and its codename. */
  const AppPrefix := "api."
  const ViewCodename := "view_product_pricing"
  const OptimizeCodename := "optimize_product_pricing"
  const ViewPricing := AppPrefix + ViewCodename
  const OptimizePricing := AppPrefix + OptimizeCodename

  /** `CanViewProductPricing`; `hasPerm` is Django's `user.has_perm`. */
  function CanViewProductPricing(hasPerm: string -> bool): (b: bool)
    ensures b <==> hasPerm(ViewPricing)
  {
    assert ViewPricing == "api.view_product_pricing";
    hasPerm("api.view_product_pricing")
  }

  /** `CanOptimizeProductPricing`. */
  function CanOptimizeProductPricing(hasPerm: string -> bool): (b: bool)
    ensures b <==> hasPerm(OptimizePricing)
  {
    assert OptimizePricing == "api.optimize_product_pricing";
    hasPerm("api.optimize_product_pricing")
  }

  /** DRF's `SAFE_METHODS`. */
  const SafeMethods: set<string> := {"GET", "HEAD", "OPTIONS"}

  /** `ReadOnly`: the request method is one that does not change anything. */
  function ReadOnly(httpMethod: string): (b: bool)
    ensures b <==> httpMethod == "GET" || httpMethod == "HEAD" || httpMethod == "OPTIONS"
  {
    httpMethod in SafeMethods
  }
}
