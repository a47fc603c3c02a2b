# Price optimisation: a verified model

The repository is a price-optimisation tool for a retail catalogue. It has two halves.

The Django backend (`price_optimization/`) does four jobs:
- It stores products, monthly sales history, market conditions and optimisation logs.
- It forecasts demand as a time-weighted mean of past sales.
- It suggests a price by blending the current price with a cost-plus-margin target, scaling by the active market conditions and never going below a minimum margin over cost.
- It guards all of this with JWT login, role groups and permissions, which a seed command sets up.

The React/Redux client (`price_optimization_fe/`) does four jobs:
- It keeps the session in `localStorage` and in an auth slice.
- It sends requests through an RTK Query base query that refreshes an expired token once and retries.
- It tags cached queries so that mutations make them stale.
- It derives what the pages show: the product list filter, the dashboard figures, the demand charts, the product form, the role-based menu and the guarded routes.

This project models that core in Dafny, one module per source file:

| module | models |
|---|---|
| `Models`, `Accounts` | the database tables and the account tables |
| `Services`, `Market` | the forecast and optimiser services |
| `ApiViews` | the API views |
| `Filters` | the query filters |
| `Permissions` | the permission classes |
| `AuthViews` | the authentication views |
| `AuthSerializers` | the account serializers |
| `SeedData` | the seed command |
| `Browser` | `localStorage` |
| `AuthUtils`, `AuthSlice`, `AuthThunks` | the client session layer |
| `ApiSlice`, `ApiCache`, `ProductApi`, `ServicesApi` | the RTK Query layer |
| `Dashboard`, `DemandVisualization`, `ProductForm`, `ProductList`, `Sidebar`, `MainLayout`, `AppRoutes` | the components |

`Json`, `Text`, `Calendar`, `Http`, `ClientTypes`, `ApiTypes` and `Wrappers` hold the shared values they work on.

How the model takes the code's form:
- Pure derivations are functions with lemmas.
- Loops are methods with invariants, proved against those functions.
- Objects that change in place are classes with `modifies` frames:
  - the storage map;
  - the auth slice;
  - the query cache;
  - the headers object;
  - the network;
  - the product form;
  - the account directory;
  - the seeded catalogue.

How external inputs are modelled:
- The server, the clock and the random draws of the seed command are parameters.
- So are Python's `float()`, JavaScript's `parseFloat` and number formatting.

How numbers are modelled:
- Prices and rates are reals.
- Python's `int()` is written out as truncation toward zero (`Services.Trunc`).
- JavaScript's `Math.round` and `%` are written out as well.

Where the code and the documented behaviour of the system pull apart, the model follows the code, with one exception: the dates of the seeded price history. These are listed under "## Findings", and the seed command is modelled with the corrected dates; the "## Left out" lines naming `SeedData.NewHistoryRow` and the members that build on it say what that changes. The place where code and documentation pull apart:
- The active-condition filter of the API (`filters.py:54-61`) counts a condition with no end date as active.
- The optimiser (`services.py:89-94`) filters on `end_date__gte`, which a missing end date never satisfies, so it ignores that condition.
- `ApiViews.OpenEndedConditionIsActiveButNotApplied` states this.

## Model

| member | source | states |
|---|---|---|
| `Accounts.UserType` | price_optimization/authentication/views.py:43-46 | the user's profile type when a profile exists, and "unknown" when it does not |
| `Accounts.UserClaims` | price_optimization/authentication/serializers.py:10-23 | the token claims are the base claims plus exactly `username`, `email` and `user_type`, holding the user's values; every other base claim is kept unchanged |
| `Accounts.FindUser` | price_optimization/authentication/views.py:196-199 | the lookup fails exactly when no user has the id, and otherwise returns a user of the table with that id |
| `Accounts.Directory.AddToGroup` | price_optimization/authentication/views.py:211 | adding a user to a group is a set union: adding a group already held changes nothing, and no other user's groups change |
| `Accounts.Directory.Grant` | price_optimization/api/management/commands/seed_data.py:45-47 | granting a permission is a set union: granting one already held changes nothing, and no other group's permissions change |
| `Models.FindProduct` | price_optimization/api/views.py:77-78 | `Product.objects.get(pk=...)` fails exactly when no product has the id, and otherwise returns the product with that id |
| `Market.MarketFactor` | price_optimization/api/services.py:97-104 | the market factor is undefined (a division by zero) exactly when some counted 'down' condition has impact factor 0 |
| `Market.FoldPermutation` | price_optimization/api/services.py:97-104 | folding a commutative monoid over two orderings of the same conditions gives the same value |
| `Market.MarketFactorOrderFree` | price_optimization/api/services.py:97-104 | the market factor does not depend on the order in which the conditions are returned |
| `Market.ComputeMarketFactor` | price_optimization/api/services.py:97-107 | the `for condition in market_conditions` loop computes the market factor, including its division-by-zero failure |
| `Services.Trunc` | price_optimization/api/services.py:46 | `int()` on a float truncates toward zero: the result lies within one of the argument, on the zero side |
| `Services.RowsOf` | price_optimization/api/services.py:15 | the product's history holds exactly the rows of the table that belong to that product |
| `Services.OrderByMonthSorts` | price_optimization/api/services.py:15 | `order_by('month')` returns the same rows, as a permutation, sorted by month |
| `Services.MonthHistoryIsOrdered` | price_optimization/api/services.py:15 | the history the forecast reads is sorted by month and holds exactly that product's rows |
| `Services.TotalWeight` | price_optimization/api/services.py:22-26 | the weights 1..n sum to at least n, so the weighted mean never divides by zero when there is history |
| `Services.SeasonFactor` | price_optimization/api/services.py:32-42 | the season factor is 1.0 when no history row falls in today's calendar month, when every row does, and when the rows sold nothing in total |
| `Services.ForecastFrom` | price_optimization/api/services.py:17-51 | a forecast computed for an existing product is at least 1 |
| `Services.Forecast` | price_optimization/api/services.py:9-53 | the forecast is 0 exactly when the product does not exist, and at least 1 for every existing product |
| `Services.ForecastWithoutHistory` | price_optimization/api/services.py:49-51 | a product with no history rows is forecast as max(1, int(units_sold × 1.1)) |
| `Services.WeightedTotals` | price_optimization/api/services.py:19-26 | the weighting loop's two accumulators are the weighted sum (row i weighs i + 1) and the total weight of the history |
| `Services.ForecastDemand` | price_optimization/api/services.py:9-53 | `forecast_demand` returns the forecast |
| `Services.WeightedSumBounds` | price_optimization/api/services.py:22-29 | when every row's units lie in [lo, hi], the weighted sum lies between lo and hi times the total weight |
| `Services.WeightedMeanBetween` | price_optimization/api/services.py:22-29 | the time-weighted mean lies between the smallest and the largest monthly units sold |
| `Services.ElasticityWeight` | price_optimization/api/services.py:80 | the price sensitivity is clamped into [0.1, 2.0]: unchanged inside, 0.1 below and 2.0 above |
| `Services.BlendForm` | price_optimization/api/services.py:83 | the blended price moves from the current price toward the cost-plus-margin price by 1/(1 + weight) of the gap |
| `Services.BlendBetween` | price_optimization/api/services.py:83 | the blended price is a convex combination, so it lies between the current price and the cost-plus-margin price |
| `Services.BlendApproachesCurrent` | price_optimization/api/services.py:78-83 | a higher elasticity weight moves the blended price closer to the current price |
| `Services.ApplicableConditions` | price_optimization/api/services.py:89-94 | the counted conditions are exactly those of the product's category with start ≤ today ≤ a present end date |
| `Services.ApplicableConditionsCount` | price_optimization/api/services.py:89-94 | each applicable condition is counted as many times as it occurs, and every other condition is not counted |
| `Services.PriceFrom` | price_optimization/api/services.py:83-114 | the price is never below the minimum price, cost × 1.05 |
| `Services.OptimizedPrice` | price_optimization/api/services.py:57-118 | an unknown product gives 0.0. An existing product gets a price of at least cost × 1.05. The call fails exactly when market conditions are considered and a counted 'down' condition has impact factor 0 |
| `Services.PriceWithoutMarket` | price_optimization/api/services.py:80-114 | without market conditions the price never fails. It is either the minimum price or lies between the current price and the cost-plus-margin price |
| `Services.OptimizedPriceOrderFree` | price_optimization/api/services.py:86-107 | the optimised price does not depend on the order of the market-condition rows |
| `Services.OptimizePrice` | price_optimization/api/services.py:57-118 | `optimize_price`, loop included, returns the optimised price |
| `ApiViews.FloatParam` | price_optimization/api/views.py:96-97 | a missing query parameter takes its default; a present one is what `float()` makes of its text, failing when that does |
| `ApiViews.ConsiderMarket` | price_optimization/api/views.py:98 | `consider_market` is true when absent; when present it is true iff its lower-cased text is exactly "true" |
| `ApiViews.ConsiderMarketSpellings` | price_optimization/api/views.py:98 | a present `consider_market` is true iff it equals "true" ignoring ASCII case |
| `ApiViews.DecodeParameters` | price_optimization/api/views.py:96-98 | decoding fails exactly when a present margin or sensitivity is not a float; otherwise it yields the parsed values or the defaults 0.3 and 1.0, and the decoded flag |
| `ApiViews.QueryText` | price_optimization_fe/src/api/productApi.ts:115-119 | the query string the client sends carries exactly the keys of the params object |
| `ApiViews.ClientParametersArrive` | price_optimization/api/views.py:96-98 | parameters the client builds arrive at the view as the values sent, with the server defaults for each field left out |
| `ApiViews.ForecastView` | price_optimization/api/views.py:76-82 | the forecast endpoint answers 404 exactly for an unknown product, and otherwise the product's forecast, which is at least 1 |
| `ApiViews.OptimizeOutcome` | price_optimization/api/views.py:91-130 | 404 exactly for an unknown product. 500 exactly when a parameter does not decode or the optimiser divides by zero. Otherwise the product's name and current price, and as optimised price exactly the value `optimize_price` returns for the decoded parameters, which is at least cost × 1.05 |
| `ApiViews.NewLogRows` | price_optimization/api/views.py:101-121 | one log row is written iff the answer's optimised price is positive. It records the current selling price as original price, the optimised price (the value `optimize_price` returns for the recorded parameters), the forecast, the decoded parameters and the requesting user |
| `ApiViews.PositiveCostIsLogged` | price_optimization/api/views.py:109-121 | every successful optimisation of a product with positive cost is logged |
| `ApiViews.LogTable.Create` | price_optimization/api/views.py:110-121 | creating a log appends exactly that row |
| `ApiViews.OptimizeView` | price_optimization/api/views.py:91-130 | the view answers the optimisation outcome and appends exactly the new log rows |
| `ApiViews.OptimizeEach` | price_optimization/api/views.py:149-164 | the bulk loop fails exactly when some product's optimisation fails. Otherwise it yields one entry per product, in order, each with that product's forecast and optimised price |
| `ApiViews.BulkOptimizeView` | price_optimization/api/views.py:139-166 | the bulk endpoint never answers 404. It answers 500 exactly when the parameters do not decode or some filtered product's optimisation fails. Otherwise one entry per filtered product, each forecast at least 1 |
| `ApiViews.CurveStep` | price_optimization/api/views.py:260 | the 13 price steps of the demand curve lie in [0.7, 1.3], and the middle one is 1.0 |
| `ApiViews.CurveMiddle` | price_optimization/api/views.py:259-272 | the middle point of the demand curve is the current price, at the forecast demand when the elasticity power of 1 is 1 |
| `ApiViews.HistoricalData` | price_optimization/api/views.py:246-252 | the historical points are one per history row, in order, with the row's date, price and units |
| `ApiViews.DemandCurve` | price_optimization/api/views.py:259-272 | building the curve fails exactly when the current price is zero (a division by zero); otherwise it gives the 13 points of the elasticity model |
| `ApiViews.VisualizationView` | price_optimization/api/views.py:240-283 | 404 exactly for an unknown product. 500 exactly when its selling price is zero. Otherwise the product's forecast, its month-ordered history points and its demand curve |
| `ApiViews.AppliedConditionsAreActive` | price_optimization/api/filters.py:54-61 | every condition the optimiser applies passes the `active=true` filter |
| `ApiViews.OpenEndedConditionIsActiveButNotApplied` | price_optimization/api/services.py:89-94 | a started condition with no end date passes the `active=true` filter but is never applied by the optimiser |
| `Filters.Select` | price_optimization/api/filters.py:6-27 | filtering keeps exactly the rows that match and never adds rows |
| `Filters.SelectAll` | price_optimization/api/filters.py:6-27 | when every row matches, filtering returns the queryset unchanged |
| `Filters.SelectKeepsOrder` | price_optimization/api/filters.py:6-27 | filtering keeps the relative order of the rows it keeps |
| `Filters.InStockSplit` | price_optimization/api/filters.py:19-22 | `in_stock=true` and `in_stock=false` split the products with non-negative stock; a negative stock matches neither |
| `Filters.FilterProducts` | price_optimization/api/filters.py:10-22 | the product filter keeps exactly the products matching every given field |
| `Filters.NoProductQueryKeepsAll` | price_optimization/api/filters.py:10-22 | with no filter fields every product is returned, in order |
| `Filters.BlankCategoryKeepsAll` | price_optimization/api/filters.py:11 | a blank `category` filters no product, since django-filter skips empty values |
| `Filters.PriceBoundsInclusive` | price_optimization/api/filters.py:13-14 | `min_price` and `max_price` are inclusive bounds |
| `Filters.FilterHistory` | price_optimization/api/filters.py:33-37 | the history filter keeps exactly the rows matching every given field |
| `Filters.HistoryDateRange` | price_optimization/api/filters.py:36-37 | a start and end date keep exactly the rows whose month lies in that closed range |
| `Filters.ActiveSplit` | price_optimization/api/filters.py:54-65 | a condition passes `active=true` iff it fails `active=false` |
| `Filters.FilterConditions` | price_optimization/api/filters.py:47-65 | the condition filter keeps exactly the conditions matching every given field |
| `Filters.ActivePartition` | price_optimization/api/filters.py:54-65 | the active and inactive listings partition the conditions: each condition is in exactly one, and their sizes add up |
| `Filters.BlankConditionFieldsKeepAll` | price_optimization/api/filters.py:48-49 | a blank `category` or `trend` filters no condition |
| `Permissions.HasRole` | price_optimization/api/permissions.py:4-30 | a role check raises exactly when the user has no profile, and otherwise grants iff the profile's type is the role |
| `Permissions.AtMostOneRole` | price_optimization/api/permissions.py:4-30 | no user passes two role checks; exactly one passes iff the profile type is one of the four roles |
| `Permissions.Either` | price_optimization/api/views.py:218 | `A \| B` raises when A raises, grants when A grants, and otherwise answers as B |
| `Permissions.AdminOrAnalyst` | price_optimization/api/views.py:227 | `IsAdmin \| IsAnalyst` lets in exactly admins and analysts, and raises exactly for users without a profile |
| `Permissions.IsAdminMatchesGuard` | price_optimization/api/permissions.py:8-9 | a passing `IsAdmin` check is the same as the admin guard of the authentication views |
| `Permissions.CanViewProductPricing` | price_optimization/api/permissions.py:36-37 | access is granted iff the user holds `api.view_product_pricing` |
| `Permissions.CanOptimizeProductPricing` | price_optimization/api/permissions.py:43-44 | access is granted iff the user holds `api.optimize_product_pricing` |
| `Permissions.ReadOnly` | price_optimization/api/permissions.py:50-51 | read-only access holds iff the method is GET, HEAD or OPTIONS |
| `AuthViews.Login` | price_optimization/authentication/views.py:27-71 | bad credentials give 400 and an inactive user 403 (reachable only with a backend that authenticates inactive users), in both directions. A login carries the user's claims and sets the refresh token in an HttpOnly, SameSite=Lax cookie on /auth/ for 7 days, secure unless DEBUG |
| `AuthViews.LoginClaims` | price_optimization/authentication/views.py:42-51 | a successful login's access token names the user and their role, "unknown" without a profile |
| `AuthViews.Refresh` | price_optimization/authentication/views.py:222-242 | refresh answers 401 exactly when the cookie is missing, empty or rejected; otherwise it returns the new access token |
| `AuthViews.LoginThenRefresh` | price_optimization/authentication/views.py:59-67 | the cookie a login sets is accepted by refresh whenever its token is valid |
| `AuthViews.VisibleUsers` | price_optimization/authentication/views.py:88-96 | an admin sees every user; anyone else sees exactly their own record |
| `AuthViews.AdminOnly` | price_optimization/authentication/views.py:118-126 | the role, group and permission querysets are the whole table for an admin and empty for anyone else |
| `AuthViews.NamedGroup` | price_optimization/authentication/views.py:208-213 | one entry of `group_ids` names at most one group |
| `AuthViews.ExistingGroupsMembers` | price_optimization/authentication/views.py:206-213 | a group is assigned iff it exists and some entry of `group_ids` names it |
| `AuthViews.AssignRole` | price_optimization/authentication/views.py:191-215 | 500 without a profile, 403 for a non-admin, 404 for an unknown user, 500 for a body that is not a JSON object (`request.data.get` raises), 400 when `group_ids` is not a list; none of these changes any membership. Past those checks the user's groups are cleared and replaced by the existing groups named by the entries before the first one `Group.objects.get` raises on; the answer is 500 exactly when some entry raises, and otherwise the user with exactly the existing groups named |
| `AuthViews.ReplaceGroups` | price_optimization/authentication/views.py:207-213 | clear-then-add leaves the user with exactly the existing groups named by the entries before the first raising one; it reports a raise exactly when some entry raises; no other user changes |
| `AuthViews.BeforeRaise` | price_optimization/authentication/views.py:208-213 | the entries the loop gets through are a prefix of `group_ids`: all of them, or up to the first entry on which `get` raises, none of them raising |
| `AuthViews.RaiseStopsTheAdds` | price_optimization/authentication/views.py:207-213 | for `[a, "x", b]` the adds stop at "x": `a` is added, `b` is not, and the view answers 500 |
| `AuthViews.PyIntNatText` | price_optimization/authentication/views.py:210 | the `int()` that prepares `pk` reads the decimal text of any number, with or without a minus sign, as that number |
| `AuthViews.PyIntNeedsDigits` | price_optimization/authentication/views.py:210 | `int()` rejects text without a digit, so `get` raises on it |
| `AuthViews.GroupPkCoercions` | price_optimization/authentication/views.py:210-213 | how `get(pk=entry)` treats each kind of entry: a number and its text name the same group, `true` and `false` are 1 and 0, null matches no group, and text without digits, lists and objects raise |
| `AuthViews.FindGroup` | price_optimization/authentication/views.py:210 | the lookup fails exactly when no group has the id |
| `AuthSerializers.Validate` | price_optimization/authentication/serializers.py:44-47 | validation fails iff the password and its confirmation differ; on success `confirm_password` is dropped and every other field kept |
| `AuthSerializers.ProfileOf` | price_optimization/authentication/models.py:26-29 | a new profile's type is the one given, or "buyer" when none is |
| `AuthSerializers.FindGroupByName` | price_optimization/authentication/serializers.py:67 | the lookup fails exactly when no group has the name |
| `AuthSerializers.DefaultGroup` | price_optimization/authentication/serializers.py:63-70 | a new user joins a group iff an explicit user type names an existing group, and then joins that group |
| `AuthSerializers.DefaultBuyerHasNoGroup` | price_optimization/authentication/serializers.py:50-70 | a user registered without a profile becomes a buyer but joins no group |
| `AuthSerializers.Create` | price_optimization/authentication/serializers.py:49-72 | one active user with a fresh id, the given fields, the password and the profile is appended; memberships change only by the default group |
| `SeedData.FirstWithKey` | price_optimization/api/management/commands/seed_data.py:19 | the row `get` finds is a row of the table with the key asked for |
| `SeedData.FirstWithKeyAppend` | price_optimization/api/management/commands/seed_data.py:19-22 | appending a row never changes what an earlier key finds |
| `SeedData.DistinctGroups` | price_optimization/api/management/commands/seed_data.py:19-22 | groups of different names have different ids |
| `SeedData.GetOrCreateGroup` | price_optimization/api/management/commands/seed_data.py:19-22 | `get_or_create` returns the group of that name, appending one only when none existed; groups found before still find the same row |
| `SeedData.GetOrCreateRole` | price_optimization/api/management/commands/seed_data.py:25-29 | each group ends with a role; a new one is described "Role for <name> users"; a group that had one is unchanged |
| `SeedData.GetOrCreatePermission` | price_optimization/api/management/commands/seed_data.py:33-42 | the permission with that codename and name exists afterwards and is created only when missing |
| `SeedData.PricingGrants` | price_optimization/api/management/commands/seed_data.py:45-47 | a seeded group that may optimise pricing may also view it |
| `SeedData.SeededPricingAccess` | price_optimization/api/management/commands/seed_data.py:45-47 | under the seeded grants admins, analysts and buyers may view pricing, and only admins and analysts may optimise it |
| `SeedData.PermissionNameIn` | price_optimization/api/permissions.py:37 | the name `has_perm` checks is held iff its codename was granted |
| `SeedData.GroupsSeededIntro` | price_optimization/api/management/commands/seed_data.py:19-47 | the four groups, their roles, the two permissions and the grants together make the seeded group state |
| `SeedData.SeedGroupTable` | price_optimization/api/management/commands/seed_data.py:19-22 | the four role groups exist, with distinct ids, and a second run adds none |
| `SeedData.SeedRoles` | price_optimization/api/management/commands/seed_data.py:25-29 | every role group has a role, and a second run adds none |
| `SeedData.SeedPermissions` | price_optimization/api/management/commands/seed_data.py:33-42 | both pricing permissions exist, and a second run adds none |
| `SeedData.GrantPricing` | price_optimization/api/management/commands/seed_data.py:45-47 | admin and analyst gain both pricing permissions, buyer gains view only, supplier nothing; a second run changes nothing |
| `SeedData.GrantBoth` | price_optimization/api/management/commands/seed_data.py:45-46 | one `add` of two permissions grants both to that group and no other |
| `SeedData.SeedGroups` | price_optimization/api/management/commands/seed_data.py:19-47 | after the group section the groups, roles, permissions and grants are all seeded as listed; over tables already seeded, none of the four changes |
| `SeedData.UserIndex` | price_optimization/api/management/commands/seed_data.py:59-66 | the lookup by username fails exactly when no user has it |
| `SeedData.NewSeedUser` | price_optimization/api/management/commands/seed_data.py:59-69 | a new seed user is active, has the account's username and password and no profile yet |
| `SeedData.WithProfile` | price_optimization/api/management/commands/seed_data.py:73-80 | a user with a profile keeps it; one without gets the seed profile; nothing else about the user changes |
| `SeedData.GroupFor` | price_optimization/api/management/commands/seed_data.py:83-90 | a user joins a group iff their type is one of the four roles, and then that role's group |
| `SeedData.SeedUser` | price_optimization/api/management/commands/seed_data.py:59-80 | an existing user is kept, password included, and given a profile if missing; a new one is appended with a fresh id |
| `SeedData.AddToTypeGroup` | price_optimization/api/management/commands/seed_data.py:83-90 | the user is added to the group of their type, and memberships only grow |
| `SeedData.SeedAccountPassword` | price_optimization/api/management/commands/seed_data.py:50-69 | each seed account's username maps to that account's password |
| `SeedData.SeedAccountGroup` | price_optimization/api/management/commands/seed_data.py:83-90 | each seed account is put in the group of its own role |
| `SeedData.SeedUsers` | price_optimization/api/management/commands/seed_data.py:50-92 | each seed account is seeded, in order, into its role group. The returned users are the rows the table holds for the accounts, each with a profile. Existing passwords are kept and new users get the seed passwords. Memberships only grow. Over accounts already seeded into their groups, neither users nor memberships change |
| `SeedData.FoundAsStep` | price_optimization/api/management/commands/seed_data.py:58-92 | after one more pass of the user loop, every account seeded so far is still the row a lookup by its username finds |
| `SeedData.ProductNamesDistinct` | price_optimization/api/management/commands/seed_data.py:105-106 | the twenty seeded product names are pairwise distinct |
| `SeedData.NewSeedProduct` | price_optimization/api/management/commands/seed_data.py:105-117 | a new product has the seeded name, the drawn cost and a selling price of cost × (1 + margin) |
| `SeedData.SeededPriceCoversCost` | price_optimization/api/management/commands/seed_data.py:101-103 | with the drawn margin in [0.1, 0.5] the selling price lies in [1.1, 1.5] × cost, above cost |
| `SeedData.SeedProduct` | price_optimization/api/management/commands/seed_data.py:105-117 | `get_or_create` by name returns the product of that name and creates it from the draws only when missing |
| `SeedData.SeedProducts` | price_optimization/api/management/commands/seed_data.py:98-121 | twenty products named "Test Product 1".."20" are returned in order. Rows are only appended, and a second run appends none |
| `SeedData.NewProductsCoverCost` | price_optimization/api/management/commands/seed_data.py:98-121 | every product the seed creates sells above its cost |
| `SeedData.SeasonBump` | price_optimization/api/management/commands/seed_data.py:133-137 | the season factor lies in [1.0, 1.5] and exceeds 1 exactly in June, July, November and December |
| `SeedData.TrendFactor` | price_optimization/api/management/commands/seed_data.py:141 | the trend factor is at least 1 |
| `SeedData.SeedUnitsBounds` | price_optimization/api/management/commands/seed_data.py:127-144 | seeded monthly units are between 0 and 1.8 × the base units |
| `SeedData.MonthDateRepeatsJanuary` | price_optimization/api/management/commands/seed_data.py:130 | seeded on 2024-03-15, the 30-day steps give 2024-01-31 and 2024-01-01 for the first two months back |
| `SeedData.SeedDayIsMarch15` | price_optimization/api/management/commands/seed_data.py:124 | day 19797 after the epoch is 2024-03-15 |
| `SeedData.MonthsBefore` | price_optimization/api/management/commands/seed_data.py:129-130 | the month i months before today's month is a valid month, exactly i months earlier |
| `SeedData.HistoryMonth` | price_optimization/api/management/commands/seed_data.py:129-130 | the corrected reference for the i-th history date (the command's own date is `MonthDate`): the first day of the month i months before today's month |
| `SeedData.HistoryMonthsDistinct` | price_optimization/api/management/commands/seed_data.py:129-130 | the twelve corrected history months are pairwise distinct calendar months, which the command's 30-day steps are not |
| `SeedData.NewHistoryRow` | price_optimization/api/management/commands/seed_data.py:150-158 | a new history row belongs to the product and is dated by its corrected history month (`HistoryMonth`, not the command's `MonthDate`) |
| `SeedData.FindHistory` | price_optimization/api/management/commands/seed_data.py:150-152 | the lookup by product and month fails exactly when no row has both |
| `SeedData.SeedYear` | price_optimization/api/management/commands/seed_data.py:129-158 | afterwards the product has a row for each of the twelve months. Rows are only appended, each from the draws, and a second run appends none |
| `SeedData.SeedHistory` | price_optimization/api/management/commands/seed_data.py:124-158 | every seeded product has its year of history, and a second run adds no row |
| `SeedData.NewSeedCondition` | price_optimization/api/management/commands/seed_data.py:197-209 | a new condition has the listed name and category and runs from today + start offset to today + end offset |
| `SeedData.NewSeedConditions` | price_optimization/api/management/commands/seed_data.py:162-195 | the four listed conditions, in order, dated relative to today |
| `SeedData.SeededConditionsInForce` | price_optimization/api/management/commands/seed_data.py:162-195 | on the seed day the optimiser applies the Clothing, Electronics and Furniture conditions to their categories; "Back to School" is not yet in force |
| `SeedData.SeedCondition` | price_optimization/api/management/commands/seed_data.py:198-209 | `get_or_create` by name returns the condition of that name and creates it only when missing |
| `SeedData.SeedConditions` | price_optimization/api/management/commands/seed_data.py:197-212 | all four conditions exist afterwards, rows are only appended, and a second run appends none |
| `SeedData.SeedDirectory` | price_optimization/api/management/commands/seed_data.py:18-92 | the account half leaves the groups, roles, permissions, grants and the four accounts with profiles in their groups seeded; existing passwords are kept and new users get the seed passwords; over seeded account tables it changes none of the six |
| `SeedData.SeedCatalog` | price_optimization/api/management/commands/seed_data.py:94-212 | the catalogue half leaves the twenty products, their histories for that day and the four conditions seeded, returns the products the table holds, and over a catalogue seeded for that day changes nothing |
| `SeedData.Handle` | price_optimization/api/management/commands/seed_data.py:15-214 | the whole command leaves the account tables and the catalogue seeded; over tables already seeded (for the same day) it changes none of them, since every insert is a `get_or_create` |
| `SeedData.HandleTwice` | price_optimization/api/management/commands/seed_data.py:15-214 | a second run on the same day, with any random draws, finds the same twenty products; by `Handle`'s contract it changes no table |
| `AuthUtils.UserText` | price_optimization_fe/src/utils/authUtils.ts:6-8 | the stored user text is "undefined" exactly for an undefined user, and never empty |
| `AuthUtils.DecodeUser` | price_optimization_fe/src/utils/authUtils.ts:14-18 | a missing, empty or "undefined" entry reads as null. Any other entry reads as its JSON value, failing exactly when it does not parse |
| `AuthUtils.UserRoundTrip` | price_optimization_fe/src/utils/authUtils.ts:6-18 | `getUser` after `setUser(u)` returns u, and null for an undefined u |
| `AuthUtils.SetToken` | price_optimization_fe/src/utils/authUtils.ts:2-4 | the token is stored under "access_token" and nothing else changes |
| `AuthUtils.SetUser` | price_optimization_fe/src/utils/authUtils.ts:6-8 | the user's JSON text is stored under "user" and nothing else changes |
| `AuthUtils.GetToken` | price_optimization_fe/src/utils/authUtils.ts:10-12 | the token read is what is stored under "access_token", or null |
| `AuthUtils.GetUser` | price_optimization_fe/src/utils/authUtils.ts:14-18 | the user read is the decoded "user" entry |
| `AuthUtils.RemoveToken` | price_optimization_fe/src/utils/authUtils.ts:20-22 | only "access_token" is removed |
| `AuthUtils.RemoveUser` | price_optimization_fe/src/utils/authUtils.ts:24-26 | as written, `removeUser` removes "access_token" and leaves "user" |
| `AuthUtils.RemoveUserLeavesUser` | price_optimization_fe/src/utils/authUtils.ts:24-26 | after setting user "ada" and calling `removeUser`, `getUser` still returns "ada" |
| `AuthUtils.RemoveUserIntended` | price_optimization_fe/src/utils/authUtils.ts:24-26 | removing "user" alone makes `getUser` return null |
| `AuthUtils.ClearAuthData` | price_optimization_fe/src/utils/authUtils.ts:28-31 | exactly "access_token" and "user" are removed, so no token and a null user are read afterwards |
| `AuthUtils.IsAuthenticated` | price_optimization_fe/src/utils/authUtils.ts:33-35 | the user is authenticated iff a non-empty string is stored under "access_token" |
| `AuthUtils.RefreshedAccess` | price_optimization_fe/src/utils/authUtils.ts:45-47 | a refresh yields a token iff its result has truthy `data` with a truthy `data.access`, and that token is `data.access` |
| `AuthUtils.HandleTokenExpiration` | price_optimization_fe/src/utils/authUtils.ts:38-57 | it returns true iff the refresh resolves with a truthy access token, which it then stores. A non-null result without one changes nothing. When the refresh rejects, or resolves with `null` so that reading `result.data` throws, it clears "access_token" and "user" and returns false |
| `AuthSlice.LoadAuthState` | price_optimization_fe/src/features/auth/authSlice.ts:7-32 | the state is authenticated, with the decoded token and user, iff both "token" and "user" are stored and parse. Otherwise it is the signed-out state |
| `AuthSlice.LoggedOut` | price_optimization_fe/src/features/auth/authSlice.ts:65-69 | logging out clears authentication, token, user and error and keeps `loading` |
| `AuthSlice.LoginSuccessThenLoad` | price_optimization_fe/src/features/auth/authSlice.ts:45-57 | what `loginSuccess` stores is loaded back as the same token and user, authenticated |
| `AuthSlice.AuthSlice.constructor` | price_optimization_fe/src/features/auth/authSlice.ts:35 | the initial state is loaded from storage |
| `AuthSlice.AuthSlice.LoginStart` | price_optimization_fe/src/features/auth/authSlice.ts:41-44 | only `loading` (true) and `error` (null) change |
| `AuthSlice.AuthSlice.LoginSuccess` | price_optimization_fe/src/features/auth/authSlice.ts:45-57 | the state takes the token and user, authenticated and not loading, with the error unchanged. Both are written as JSON, so a reload restores them |
| `AuthSlice.AuthSlice.LoginFailure` | price_optimization_fe/src/features/auth/authSlice.ts:58-64 | the error is set, the session cleared and loading ended; storage is untouched |
| `AuthSlice.AuthSlice.Logout` | price_optimization_fe/src/features/auth/authSlice.ts:65-74 | the session is cleared and "token" and "user" are removed, so a reload is signed out |
| `AuthSlice.AuthSlice.UpdateToken` | price_optimization_fe/src/features/auth/authSlice.ts:75-80 | only the token and the "token" entry change; `isAuthenticated` is left as it was |
| `AuthThunks.LogoutThunk` | price_optimization_fe/src/features/auth/authThunks.ts:6-15 | afterwards none of "access_token", "user" or "token" is stored. The slice is logged out, a reload is signed out, and the query cache is empty |
| `ApiSlice.Authorization` | price_optimization_fe/src/api/apiSlice.ts:9-22 | a header is sent iff auth is not skipped and a non-empty token is stored; it is `Bearer <token>` |
| `ApiSlice.AuthHeaders` | price_optimization_fe/src/api/apiSlice.ts:7-24 | a request carries at most the Authorization header, and exactly when one is due |
| `ApiSlice.PrepareHeaders` | price_optimization_fe/src/api/apiSlice.ts:9-22 | `prepareHeaders` sets Authorization when due and otherwise leaves the headers as they were |
| `ApiSlice.BaseQuery` | price_optimization_fe/src/api/apiSlice.ts:7-24 | one request is sent, with the headers the stored token calls for, and its response is returned |
| `ApiSlice.BaseQueryWithReauth` | price_optimization_fe/src/api/apiSlice.ts:27-59 | at most three requests. A non-401 answer is returned and nothing else happens. A 401 sends one unauthenticated refresh, which is never refreshed itself. On success it stores the new token under "access_token" and retries once with it, returning the retry's result. On failure it logs out and returns the original 401 |
| `ApiCache.ApiCache.Store` | price_optimization_fe/src/api/productApi.ts:18-25 | a query's result is cached under its key, with the tags it provides, and no other entry changes |
| `ApiCache.ApiCache.Invalidate` | price_optimization_fe/src/api/productApi.ts:26-85 | invalidating tags drops exactly the cached queries that provide one of them |
| `ApiCache.ApiCache.ResetApiState` | price_optimization_fe/src/features/auth/authThunks.ts:14 | the cache is empty afterwards |
| `ProductApi.Provides` | price_optimization_fe/src/api/productApi.ts:15-176 | mutations and the forecast, optimisation and visualisation queries provide no tag; every other query provides exactly one |
| `ProductApi.Invalidates` | price_optimization_fe/src/api/productApi.ts:15-176 | an endpoint invalidates some tag iff it is a mutation |
| `ProductApi.StaleQueries` | price_optimization_fe/src/api/productApi.ts:15-176 | a mutation makes stale exactly the queries that provide a tag it invalidates |
| `ProductApi.StaleByMutation` | price_optimization_fe/src/api/productApi.ts:15-176 | product mutations make both product queries stale. A history write also makes the history query stale, and a condition write only the condition list. Forecast, optimisation and visualisation results are never made stale |
| `ProductApi.OptimizePriceQuery` | price_optimization_fe/src/api/productApi.ts:93-121 | a GET to `/api/products/{id}/optimize/` with exactly the fields that are set, `consider_market` as the boolean given; no params send no keys |
| `ProductApi.BulkOptimizePricesQuery` | price_optimization_fe/src/api/productApi.ts:124-164 | a GET to `/api/products/bulk-optimize/` with exactly the fields that are set; `consider_market` goes as the text "true"/"false"; no params send an empty query |
| `ApiTypes.ParamsObject` | price_optimization_fe/src/api/productApi.ts:97-119 | a key is present iff its field is set, and holds the field's value |
| `ServicesApi.Provides` | price_optimization_fe/src/services/api.ts:43-138 | the provided tags are among the declared tag types |
| `ServicesApi.Invalidates` | price_optimization_fe/src/services/api.ts:43-138 | the invalidated tags are among the declared tag types |
| `ServicesApi.SameTablesAsProductApi` | price_optimization_fe/src/services/api.ts:37-42 | the registered API's provides/invalidates table equals the other API layer's, and never uses a "User" tag |
| `ServicesApi.Authorization` | price_optimization_fe/src/services/api.ts:20-30 | the header is sent iff the Redux token is truthy, as `Bearer <token>` |
| `ServicesApi.PrepareHeaders` | price_optimization_fe/src/services/api.ts:18-31 | Authorization comes from the auth slice's token, never from storage; otherwise the headers are left as they were |
| `ServicesApi.OptimizePriceQuery` | price_optimization_fe/src/services/api.ts:118-127 | a GET to the product's optimise URL with the params object passed through unchanged |
| `ServicesApi.BulkOptimizePricesQuery` | price_optimization_fe/src/services/api.ts:128-134 | a GET to the bulk URL with the params object passed through unchanged |
| `Dashboard.TotalProducts` | price_optimization_fe/src/components/dashboard/Dashboard.tsx:8 | the number of products, 0 when they are not loaded |
| `Dashboard.TotalStock` | price_optimization_fe/src/components/dashboard/Dashboard.tsx:9-11 | the sum of the stock of all products, 0 when none are loaded |
| `Dashboard.AvgRating` | price_optimization_fe/src/components/dashboard/Dashboard.tsx:12-20 | "N/A" exactly when there are no products; otherwise the value times the count is the rating sum, missing ratings counting 0 |
| `Dashboard.SumsAppend` | price_optimization_fe/src/components/dashboard/Dashboard.tsx:9-18 | the stock and rating sums add over concatenated product lists |
| `Dashboard.AvgRatingBounds` | price_optimization_fe/src/components/dashboard/Dashboard.tsx:12-20 | the average rating lies between the lowest and highest rating |
| `Dashboard.RatingSumAtLeast` | price_optimization_fe/src/components/dashboard/Dashboard.tsx:15-18 | when every rating is at least lo, the rating sum is at least lo × count |
| `Dashboard.RatingSumAtMost` | price_optimization_fe/src/components/dashboard/Dashboard.tsx:15-18 | when every rating is at most hi, the rating sum is at most hi × count |
| `ClientTypes.OrZero` | price_optimization_fe/src/components/dashboard/Dashboard.tsx:16 | a missing number counts as 0, a present one as itself |
| `DemandVisualization.HistoricalChartData` | price_optimization_fe/src/components/pricing/DemandVisualization.tsx:48-56 | one chart point per history row, in order, with price and sales from the row; none without data |
| `DemandVisualization.SortByUnits` | price_optimization_fe/src/components/pricing/DemandVisualization.tsx:65-66 | the sorted copy is a permutation of the products |
| `DemandVisualization.SortByUnitsCorrect` | price_optimization_fe/src/components/pricing/DemandVisualization.tsx:65-66 | the copy is sorted by units sold, non-increasing, as a permutation. Products with equal units keep their order, as a stable sort does |
| `DemandVisualization.TopProducts` | price_optimization_fe/src/components/pricing/DemandVisualization.tsx:65-67 | at most four products, all drawn from the list |
| `DemandVisualization.TopProductsSoldMost` | price_optimization_fe/src/components/pricing/DemandVisualization.tsx:64-67 | the top products are sorted, and none of the rest sold more than any of them |
| `DemandVisualization.ForecastUnits` | price_optimization_fe/src/components/pricing/DemandVisualization.tsx:81-82 | the forecast value is `demand_forecast` when truthy, else `Math.round(units_sold × 1.1)` |
| `DemandVisualization.ByName` | price_optimization_fe/src/components/pricing/DemandVisualization.tsx:73-76 | a row has exactly one key per distinct product name |
| `DemandVisualization.Row` | price_optimization_fe/src/components/pricing/DemandVisualization.tsx:70-86 | a row's keys are "name" plus the product names, and "name" holds the row's title unless a product is called "name" |
| `DemandVisualization.YearlyComparisonData` | price_optimization_fe/src/components/pricing/DemandVisualization.tsx:59-87 | no rows for missing or empty products; otherwise exactly "Current Period" then "Forecast" over the top products |
| `DemandVisualization.LastProductWins` | price_optimization_fe/src/components/pricing/DemandVisualization.tsx:73-84 | of two top products sharing a name, the later one's value is shown |
| `DemandVisualization.PriceElasticityCurve` | price_optimization_fe/src/components/pricing/DemandVisualization.tsx:90-103 | the backend's curve when present, else the fixed fallback curve |
| `DemandVisualization.FallbackCurveFalls` | price_optimization_fe/src/components/pricing/DemandVisualization.tsx:93-100 | the fallback curve has six points whose demand falls as price rises |
| `DemandVisualization.Revenue` | price_optimization_fe/src/components/pricing/DemandVisualization.tsx:325 | a revenue point keeps price and demand and adds `Math.round(price × demand)` |
| `DemandVisualization.RevenuePoints` | price_optimization_fe/src/components/pricing/DemandVisualization.tsx:322-326 | one revenue point per curve point, in order |
| `DemandVisualization.JsRem` | price_optimization_fe/src/components/pricing/DemandVisualization.tsx:487 | JavaScript's `%` agrees with the mathematical remainder for a non-negative index and is never positive for a negative one |
| `DemandVisualization.ColorByIndex` | price_optimization_fe/src/components/pricing/DemandVisualization.tsx:478-488 | a non-negative index picks colour index mod 6; any colour returned is one of the six |
| `DemandVisualization.ColorsCycle` | price_optimization_fe/src/components/pricing/DemandVisualization.tsx:478-488 | colours repeat every six indices and are always defined for i ≥ 0 |
| `ProductForm.ParseIntDigits` | price_optimization_fe/src/components/product/ProductForm.tsx:13 | `parseInt` of a run of decimal digits is their value |
| `ProductForm.ParseIntNatText` | price_optimization_fe/src/components/product/ProductForm.tsx:13 | `parseInt` reads back the decimal text of any natural number |
| `ProductForm.ParseIntSkipsUnicodeSpace` | price_optimization_fe/src/components/product/ProductForm.tsx:13 | `parseInt` skips every ECMAScript white space before the number: an ideographic space before "5" reads as 5 |
| `ProductForm.ProductId` | price_optimization_fe/src/components/product/ProductForm.tsx:12-13 | no id, an empty id and "new" name no product |
| `ProductForm.EditModeForPositiveId` | price_optimization_fe/src/components/product/ProductForm.tsx:13-14 | a positive numeric id opens the form in edit mode for that id |
| `ProductForm.CreateModeForNewAndZero` | price_optimization_fe/src/components/product/ProductForm.tsx:13-14 | "new" and "0" both open the form in create mode |
| `ProductForm.NumberOrZero` | price_optimization_fe/src/components/product/ProductForm.tsx:74 | a number that does not parse counts as 0 |
| `ProductForm.ChangedValue` | price_optimization_fe/src/components/product/ProductForm.tsx:55-82 | the five numeric fields store the parsed number or 0; any other field stores the raw text |
| `ProductForm.LoadedForm` | price_optimization_fe/src/components/product/ProductForm.tsx:39-52 | a loaded product fills exactly the form's fields: name, description, cost and selling price, stock, units sold and category take the product's values, the rating defaulting to 0 |
| `ProductForm.ProductForm.constructor` | price_optimization_fe/src/components/product/ProductForm.tsx:27-36 | the form starts with the initial values, nothing saved and no navigation |
| `ProductForm.ProductForm.HandleChange` | price_optimization_fe/src/components/product/ProductForm.tsx:55-82 | only the named field changes, to its changed value |
| `ProductForm.ProductForm.LoadExisting` | price_optimization_fe/src/components/product/ProductForm.tsx:39-52 | a loaded product replaces the form data; no product leaves it |
| `ProductForm.ProductForm.HandleSubmit` | price_optimization_fe/src/components/product/ProductForm.tsx:85-99 | create mode saves a new product, edit mode updates the parsed id, and the page goes to /products only on success |
| `ProductList.TruthyCategories` | price_optimization_fe/src/components/product/ProductList.tsx:14 | exactly the non-empty categories of the products |
| `ProductList.Distinct` | price_optimization_fe/src/components/product/ProductList.tsx:13-15 | each value once, in order of first appearance |
| `ProductList.Categories` | price_optimization_fe/src/components/product/ProductList.tsx:13-15 | each non-empty category exactly once; none when products are not loaded |
| `ProductList.Filter` | price_optimization_fe/src/components/product/ProductList.tsx:18-28 | exactly the products passing the search and category tests |
| `ProductList.FilteredProducts` | price_optimization_fe/src/components/product/ProductList.tsx:18-28 | undefined exactly when products are undefined, else the filtered list |
| `ProductList.FilterAppend` | price_optimization_fe/src/components/product/ProductList.tsx:18-28 | filtering distributes over concatenation, so it keeps the products' order |
| `ProductList.EmptyFiltersKeepAll` | price_optimization_fe/src/components/product/ProductList.tsx:18-28 | with an empty search and no category every product is kept, in order |
| `Sidebar.UserType` | price_optimization_fe/src/components/common/Sidebar.tsx:8-10 | a user type is read only through a profile |
| `Sidebar.Menu` | price_optimization_fe/src/components/common/Sidebar.tsx:5-83 | Dashboard and Products are always first. Demand Forecast shows iff admin, analyst or buyer; Price Optimization iff admin or analyst; User Management iff admin |
| `Sidebar.MenuNests` | price_optimization_fe/src/components/common/Sidebar.tsx:8-83 | User Management implies Price Optimization, which implies Demand Forecast. A supplier or a user without a profile sees only the two fixed entries |
| `MainLayout.Guard` | price_optimization_fe/src/layouts/MainLayout.tsx:9-14 | signed out always redirects to /login; signed in renders the child inside the frame |
| `AppRoutes.ChildOf` | price_optimization_fe/src/App.tsx:36-46 | a child route never matches the index or /login; a detail match has "/products/" (in any case) as prefix and the id is the one remaining segment, as written |
| `AppRoutes.Route` | price_optimization_fe/src/App.tsx:27-49 | /login (any case, trailing slashes allowed) shows the login page or redirects to /dashboard. The index redirects. The five children render guarded. Any other path redirects to / |
| `AppRoutes.TrailingSlashIgnored` | price_optimization_fe/src/App.tsx:27-49 | a trailing slash changes neither the matched child route nor what the router renders |
| `AppRoutes.ProductsWithSlash` | price_optimization_fe/src/App.tsx:39 | "/products/" shows the product list |
| `AppRoutes.ProductsAnyCase` | price_optimization_fe/src/App.tsx:39 | "/Products" shows the product list: no route sets `caseSensitive` |
| `AppRoutes.DetailWithSlash` | price_optimization_fe/src/App.tsx:40 | "/products/5/" shows product "5" |
| `AppRoutes.DetailAnyCase` | price_optimization_fe/src/App.tsx:40 | "/Products/AbC" shows product "AbC": the prefix matches in any case and the id keeps its own |
| `AppRoutes.EmptySegmentUnmatched` | price_optimization_fe/src/App.tsx:40 | "/products//5" matches no page, since `:id` needs a non-empty segment |
| `AppRoutes.EveryPathSettles` | price_optimization_fe/src/App.tsx:27-49 | every path settles within two redirects: on the login page when signed out, and on the page its route matches, or the dashboard, when signed in |
| `Json.ParseStringify` | price_optimization_fe/src/utils/authUtils.ts:6-18 | `JSON.parse(JSON.stringify(v))` gives back v |
| `Text.Includes` | price_optimization_fe/src/components/product/ProductList.tsx:19-21 | `includes` holds iff the needle occurs at some position |

## Left out

- Services.OptimizedPrice: the price is stated before Python's `round(..., 2)`; rounding to two decimals, and the Decimal quantize of stored prices, are not modelled. So `ApiViews.NewLogRows` tests the unrounded price for `> 0`: a minimum price below 0.005, which rounds to 0 in the code, is logged by the model and not by the view.
- Floats are reals. Python's `float()`, JavaScript's `parseFloat` and number formatting are parameters of the functions that use them, and so is the power `**` of the demand curve (`pow`).
- ApiViews.DemandCurve: the curve points are stated before `round(price, 2)` and `round(demand, 0)`.
- The seed command's `random` draws are parameters (`Draws`); the lemmas about seeded values assume each draw lies in the range the command draws from.
- Json.ParseStringify: the JSON reader accepts the text `JSON.stringify` writes (no whitespace, integer numbers only); other valid JSON text reads as a syntax error.
- The django-filter form decoding is not modelled: a filter field that does not decode is dropped, and the query model receives only decoded fields.
- SeedData.NewHistoryRow: a history row is dated by the corrected month (`HistoryMonth`), not by the command's first-of-month minus 30 × i days (`MonthDate`, seed_data.py:130); seeded on 2024-03-15, the command writes 2024-01-31 and 2024-01-01 where the model writes 2024-02-01 and 2024-01-01. The season bump of seed_data.py:133-137 reads the month of that corrected date, as the command reads it of its own.
- SeedData.SeedYear: the twelve rows it seeds, and the `YearSeeded` state it ensures, are on the corrected months, not on the command's twelve 30-day-step dates.
- SeedData.SeedHistory: the year of history of every product is on the corrected months, as in `SeedData.SeedYear`.
- SeedData.SeedCatalog: the seeded catalogue it ensures includes history on the corrected months, as in `SeedData.SeedYear`.
- SeedData.Handle: the seeded state it ensures includes history on the corrected months, as in `SeedData.SeedYear`.
- Python's `int()` (`AuthViews.PyInt`) is modelled on ASCII digits. Other Unicode decimal digits, which `int()` also reads, raise in the model. JSON numbers are integers here, so a fraction such as `3.5`, which `int()` truncates to 3, is not modelled. Text of more than 4300 digits, which `int()` refuses, is read in the model.
- Role assignment is modelled for JSON request bodies only. A form-encoded body, where `request.data` is a QueryDict whose `group_ids` is a single string, is not modelled.
- AuthViews.Login: `authenticate` is a parameter. Django's default `ModelBackend` returns None for an inactive user, so with that backend the 403 branch is unreachable and an inactive user gets the 400. The 403 is reached only with a backend that authenticates inactive users.
- `get_or_create` raising `MultipleObjectsReturned` on duplicate rows is not modelled; the first matching row is taken.
- Password hashing, `set_password` and `validate_password` are not modelled: the model keeps the plain password.
- Dates are day numbers. `month__month` and `strftime('%Y-%m')` are kept as the (year, month) pair.
- `created_by`, `description` and the other text-only fields of seeded rows are not modelled.
- The seed command's `stdout` messages and all `print`/`console` output are left out.
- The generic list/create/retrieve/update/destroy views and their serializers are not modelled, beyond the querysets above. Nor are pagination, ordering, search and `health_check`.
- AppRoutes.Follow: redirects are followed with a fuel bound, so a redirect loop would show as running out of fuel rather than as divergence.
- AppRoutes.ChildOf: React Router's percent-decoding of path segments and its basename handling are not modelled; case folding covers ASCII letters only, which is all the route patterns contain.
- ProductList.Filter: `toLowerCase` is modelled on ASCII letters only (`Text.Lower`), so a search for "CAFÉ" does not find "Café" in the model, while it does in the browser. The same ASCII folding stands for Python's `str.lower()` and the database's `icontains`/`iexact`.
- Dashboard.AvgRating: ratings are assumed to reach the client as numbers. `customer_rating` is a `DecimalField`, which Django REST framework sends as a string unless `COERCE_DECIMAL_TO_STRING` is off. The settings that decide this are not part of this model. With string ratings, `acc + (product.customer_rating || 0)` would join strings and the average would not be a number.
- React rendering, loading spinners, error banners and the chart libraries are not modelled; only the values the components derive are.
- Network I/O is an oracle: `Http.Network` answers the k-th request with a function given at construction. Concurrent requests and their interleaving are not modelled.
- Accounts.Directory: users, groups and permissions are sequences in a class; database transactions and concurrent commands are not modelled.

## Findings

| source | as written | input that shows it | evidently intended | confidence | as-written member | corrected member |
|---|---|---|---|---|---|---|
| price_optimization_fe/src/utils/authUtils.ts:24-26 | `removeUser` removes the "access_token" entry | `setUser({"ada"})`, then `removeUser()`, then `getUser()` still returns "ada" (and the token is gone) | remove the "user" entry | high (not executed) | `AuthUtils.RemoveUserLeavesUser` | `AuthUtils.RemoveUserIntended` |
| price_optimization/api/management/commands/seed_data.py:130 | the history date is the first of the month minus 30 × i days | seeded on 2024-03-15, months 1 and 2 back are 2024-01-31 and 2024-01-01: January twice, February missing | the first day of each of the twelve previous calendar months | medium (not executed) | `SeedData.MonthDateRepeatsJanuary` | `SeedData.HistoryMonthsDistinct` |

The model seeds history with the corrected month (`SeedData.HistoryMonth`, used by `SeedData.NewHistoryRow`); "## Left out" names what this changes.

