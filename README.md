# PolicyEngine request core, modelled in Dafny

PolicyEngine compares a user's tax/benefit reform against a baseline, for one
household or for a whole population, and serves the results over HTTP. This
project models the layer around the (unseen) simulation engine:

- **Server** (`server.dfy`, from `policyengine_old/server.py`): the
  `PolicyEngine` class. `Call` is the cache wrapper `new_fn`. It merges the
  query string and the JSON body into one parameter map, and body keys win.
  Unless the handler carries the exclude-from-cache marker, it answers from
  the cache store or runs the handler and stores the result. The constructor
  enables the cache only when a bucket is named and debug mode is off.
  `InitForwarding`/`RegisterCountry` are the nested registration loops: they
  build the route table and the `setattr` attributes. The route and endpoint
  names are pure string functions. `Serve` is the pure specification that
  `Call` is proved against. The lemmas about `Serve` state hits, misses,
  exclusion, the disabled cache, null results and version isolation.
- **Countries** (`country.py` → `country.dfy`): the `Country` class. It covers
  the composition of the default reform, the table of eight endpoints and
  their cache markers, and the UBI sizing rule `max(0, revenue / persons)`. It
  builds every reformed simulation from `(default_reform, user_reform)`. It
  also has the `household_reform` steps that build four individual
  simulations (`HouseholdSim`, a class whose `set_input` and `vary` change it
  in place). Two of them are perturbed copies whose 2021 employment income is
  the unperturbed value plus one.
- **PopulationMetrics** (`metrics.py` → `metrics.dfy`): `poverty_rate`,
  `deep_poverty_rate` and `headline_metrics` as pure functions over exact
  real vectors, with lemmas for bounds, swap symmetry, the identity reform,
  and budgetary impact as a sum of per-household changes.
- **Simulation** (`simulation.dfy`): the engine interface. A reform is a tree
  of steps (a Python tuple of reforms). `Flatten` gives the order in which
  its steps are applied. A population simulation is known only through its
  `calc` results (`Microsim.evaluate`), and the engine is an uninterpreted
  function from the flattened reform. **Values** (`values.dfy`) holds JSON
  values, `Option` and `Result`.

Points where the program's behaviour is easy to misread:

- The cache key does not contain the country: `new_fn` passes only the
  parameters, the handler name and the version to the cache helpers
  (`policyengine_old/server.py:56-58`, `64-69`). The model's key is built from
  exactly those three. So in the model, and in the program unless its cache
  helpers (`policyengine_old/utils/general.py`, not part of this model) read
  the request themselves, the UK and US handlers that share a name (`ubi`,
  `population_reform`, `population_breakdown`) share cache entries.
  `Server.ServeThenHit` states this: after a miss, any handler with the same
  name is answered from the cache without running.
- `poverty_rate`, `deep_poverty_rate` and `ubi` divide by the subgroup size
  and by the person total. The model states both as preconditions.
- The docstring of `headline_metrics` mentions `gini_change`. The result has
  exactly four keys, which are the four fields of `Headline`.

## Model

| member | source | states |
|---|---|---|
| `Server.MergeParams` | policyengine_old/server.py:48 | merging succeeds exactly when the body is absent, falsy or a mapping; the result has every query key and every body key, a body value wins on a shared key, and an absent or falsy body contributes nothing |
| `Server.Hyphenate` | policyengine_old/server.py:84 | the route name is the handler name with every `_` replaced by `-` and every other character kept, same length |
| `Server.RoutePathsSeparateCountries` | policyengine_old/server.py:84 | route paths `/{country}/api/{name}` of countries whose names hold no `/` are equal only for the same country and the same hyphenated name |
| `Server.EndpointIdsSeparate` | policyengine_old/server.py:86 | the Flask endpoint id `{country}_{name}` of countries whose names hold no `_` is equal only for the same country and the same handler name, so no two registered endpoints collide |
| `Server.StandardCountryRoutes` | policyengine_old/server.py:73-75 | for a country with the eight-endpoint table, exactly the three cacheable handlers get a `cached_`-prefixed wrapper name |
| `Server.RouteTableMembers` | policyengine_old/server.py:78-90 | a route is registered if and only if it is the route of some handler of some country |
| `Server.OverlayLastWins` | policyengine_old/server.py:89-90 | the attribute set under a wrapper name is the last route registered under that name (a later country's same-named handler replaces an earlier one) |
| `Server.OverlayUntouched` | policyengine_old/server.py:89-90 | attribute names that no route uses keep their earlier value |
| `Server.OverlayConcat` | policyengine_old/server.py:78-90 | setting the attributes of two runs of routes, one after the other, is setting those of their concatenation |
| `Server.PolicyEngine.constructor` | policyengine_old/server.py:114-120 | the cache is the bucket exactly when a bucket is named and debug mode is off, and the route table and attributes are those of all countries' handlers |
| `Server.PolicyEngine.InitCache` | policyengine_old/server.py:102-112 | the cache is disabled (None) when the bucket name is None or `POLICYENGINE_DEBUG` is set and non-empty, and is the bucket otherwise |
| `Server.PolicyEngine.InitForwarding` | policyengine_old/server.py:78-90 | the outer loop appends every country's routes in order and sets each wrapper's attribute |
| `Server.PolicyEngine.RegisterCountry` | policyengine_old/server.py:79-90 | the inner loop appends one route per handler and sets its attribute twice, to the same wrapper |
| `Server.PolicyEngine.Call` | policyengine_old/server.py:47-71 | a malformed body fails without touching the cache; otherwise the result, the new cache and the handler invocations are those of `Serve` on the merged parameters |
| `Server.ServeExcluded` | policyengine_old/server.py:50-63 | an excluded handler always runs on the merged parameters, and the cache is left as it was |
| `Server.ServeDisabled` | policyengine_old/server.py:55-71 | with the cache disabled every call runs the handler and nothing is stored |
| `Server.ServeHit` | policyengine_old/server.py:55-60 | a stored non-null result for (params, name, version) is returned, the handler does not run, and the cache is unchanged |
| `Server.ServeMiss` | policyengine_old/server.py:61-71 | on a miss (absent or stored null) the handler runs once, its result is returned unchanged and stored under (params, name, version) |
| `Server.ServeThenHit` | policyengine_old/server.py:56-69 | after a miss that stored a non-null result, a call with the same parameters, handler name and version returns that result without running, even for another country's handler |
| `Server.ServeNullRecomputes` | policyengine_old/server.py:59-62 | a handler that returned null runs again on the next identical call |
| `Server.ServeVersionIsolation` | policyengine_old/server.py:56-69 | a store under one version changes nothing that another version reads |
| `Countries.EndpointTable` | policyengine/countries/country.py:77-86 | eight distinct endpoint names; exactly `household_reform`, `parameters`, `entities`, `variables`, `default_household` are excluded from the cache, and `population_reform`, `ubi`, `population_breakdown` are cached |
| `Countries.DefaultReform` | policyengine/countries/country.py:54-60 | the default reform applies current parameters, then the parameter file if there is one, then the class default reform |
| `Countries.Country.constructor` | policyengine/countries/country.py:53-96 | the instance stores the composed default reform, the baseline built from it, the endpoint table, the entities dictionary and the reference data |
| `Countries.Country.ReformSim` | policyengine/countries/country.py:98-104 | a reformed population simulation applies every default-reform step before every user-reform step |
| `Countries.Country.PopulationReform` | policyengine/countries/country.py:106-122 | the headline metrics compare the shared baseline with the simulation of the default steps followed by the user steps |
| `Countries.UbiAmount` | policyengine/countries/country.py:193-197 | the UBI is never negative; it is revenue / persons when that is positive and 0 otherwise, so it equals revenue / persons for revenue ≥ 0 and is 0 for revenue < 0 when persons > 0 |
| `Countries.Country.Ubi` | policyengine/countries/country.py:184-198 | the response has the single key `UBI`, a non-negative number, and for a positive person total equal to (baseline − reformed total net income) / person total when that revenue is non-negative, 0 when it is negative |
| `Countries.UbiOfRevenueNeutralReform` | policyengine/countries/country.py:189-197 | a user reform that leaves total net income unchanged yields UBI 0 |
| `Countries.UbiOfEmptyReform` | policyengine/countries/country.py:184-198 | a user reform with no steps reproduces the baseline simulation and yields UBI 0 |
| `Countries.StaticEndpointsIgnoreParams` | policyengine/countries/country.py:200-214 | `parameters`, `entities`, `variables` and `default_household` return their stored data whatever the parameters |
| `Countries.Country.CreateSituation` | policyengine/countries/country.py:124-130 | the situation is built from `params["household"]` and the stored hierarchy and entities, and fails exactly when that key is absent |
| `Countries.Country.BaselineHouseholdSim` | policyengine/countries/country.py:132-138 | a fresh 2021 individual simulation of the situation under the default reform, with no forced inputs |
| `Countries.Country.ReformHouseholdSim` | policyengine/countries/country.py:140-148 | a fresh 2021 individual simulation under `(default_reform, reform)`, whose steps are the default's followed by the reform's |
| `Countries.Country.HouseholdReform` | policyengine/countries/country.py:151-182 | fails exactly when `household` is missing; otherwise four pairwise distinct fresh simulations share the situation, the unperturbed two run on the household engine for 2021 (the baseline under the default reform, the reformed one under the default reform then the user reform), and each perturbed copy has the same reform and year as its unperturbed one with only 2021 employment income forced to the unperturbed value + 1; the two unperturbed ones are then swept over employment income in steps of 100 |
| `Countries.HouseholdSim.constructor` | policyengine/countries/country.py:136-137 | an individual simulation starts from its situation, reform and year with no forced inputs and no sweep |
| `Countries.HouseholdSim.SetInput` | policyengine/countries/country.py:163 | forcing an input replaces that (variable, period) entry only |
| `Countries.HouseholdSim.Vary` | policyengine/countries/country.py:172-173 | a sweep is set up over the variable with the given step, with the inputs unchanged |
| `Simulation.FlattenAllAppend` | policyengine/countries/country.py:145-147 | applying a tuple of reforms that is a concatenation applies the first part's steps, then the second's |
| `Simulation.ComposePair` | policyengine/countries/country.py:99-100 | the reform `(a, b)` applies all steps of `a` before all steps of `b` |
| `Simulation.ComposeAssociative` | policyengine/countries/country.py:145-147 | nesting `((a, b), c)` or `(a, (b, c))` applies the same steps in the same order |
| `PopulationMetrics.CountWhere` | policyengine/impact/population/metrics.py:60-61 | the count of entries satisfying a test is at most the length, and is zero exactly when no entry satisfies it |
| `PopulationMetrics.Share` | policyengine/impact/population/metrics.py:60-61 | the mean of a boolean vector lies in [0, 1] and is 0 exactly when no entry is true |
| `PopulationMetrics.Masked` | policyengine/impact/population/metrics.py:15-17 | the subgroup selection keeps as many entries as there are persons with a positive population value |
| `PopulationMetrics.PovertyRate` | policyengine/impact/population/metrics.py:10-17 | the poverty rate is the in-poverty mean over persons with population > 0, and lies in [0, 1] for a 0/1 indicator |
| `PopulationMetrics.DeepPovertyRate` | policyengine/impact/population/metrics.py:20-27 | the deep-poverty rate is the deep-poverty mean over persons with population > 0, and lies in [0, 1] for a 0/1 indicator |
| `PopulationMetrics.HeadlineMetrics` | policyengine/impact/population/metrics.py:30-67 | winner and loser shares each lie in [0, 1] and sum to at most 1; the poverty change is `pct_change(baseline mean, reformed mean)` with the baseline first; the result has exactly the four keys |
| `PopulationMetrics.CountsDisjoint` | policyengine/impact/population/metrics.py:60-61 | the count of positive gains plus the count of negative gains is at most the number of persons |
| `PopulationMetrics.SharesDisjoint` | policyengine/impact/population/metrics.py:60-61 | `winnerShare + loserShare <= 1` |
| `PopulationMetrics.CountSwap` | policyengine/impact/population/metrics.py:51-61 | the positive entries of reformed − baseline are as many as the negative entries of baseline − reformed |
| `PopulationMetrics.SumOfDifferences` | policyengine/impact/population/metrics.py:52-55 | the difference of two totals is the total of the pointwise differences |
| `PopulationMetrics.IndicatorSumBounds` | policyengine/impact/population/metrics.py:15-17 | the sum of a 0/1 vector lies between 0 and its length |
| `PopulationMetrics.MaskedIndicator` | policyengine/impact/population/metrics.py:15-17 | selecting a subgroup of a 0/1 vector gives a 0/1 vector |
| `PopulationMetrics.SubgroupRateBounds` | policyengine/impact/population/metrics.py:10-27 | for a 0/1 indicator and a non-empty subgroup the rate lies in [0, 1] |
| `PopulationMetrics.MaskedIgnoresOutsiders` | policyengine/impact/population/metrics.py:15-17 | two indicators that agree on the persons with population > 0 select the same entries |
| `PopulationMetrics.SubgroupMeanIgnoresOutsiders` | policyengine/impact/population/metrics.py:15-27 | persons with population ≤ 0 do not affect the poverty or deep-poverty rate |
| `PopulationMetrics.BudgetaryImpactPerHousehold` | policyengine/impact/population/metrics.py:52-63 | `budgetaryImpact` (reformed total − baseline total) equals the sum of per-household differences |
| `PopulationMetrics.HeadlineOfIdentity` | policyengine/impact/population/metrics.py:45-63 | when reformed equals baseline, winner share, loser share and budgetary impact are all 0 |
| `PopulationMetrics.HeadlineSwap` | policyengine/impact/population/metrics.py:45-63 | swapping baseline and reformed swaps winner and loser shares and negates the budgetary impact |

## Left out

- `population_breakdown` is not modelled. It needs `create_reform(..., return_descriptions=True)` and `get_breakdown_per_provision`, which are not part of this model. Its endpoint and cache marker are in the table.
- The charts and household figures are not modelled: `decile_chart`, `poverty_chart`, `population_waterfall_chart`, `intra_decile_chart`, `headline_figures`, `household_waterfall_chart`, `variable_changes`, `budget_chart` and `mtr_chart` are not part of this model. So `PopulationReform` returns only the headline metrics, and `HouseholdReform` returns the four simulations those functions would receive.
- The engine is not modelled. `Microsimulation`, `IndividualSim`, `calc`, `create_reform`, `create_situation`, `get_PE_parameters`, `get_PE_variables`, `build_entities` and `pct_change` are uninterpreted function values or given data in `CountryConfig`. Engine errors are not modelled.
- The baseline's `trace = True` and the warm-up `calc` calls whose results are discarded are left out: the baseline's and the reformed population simulation's `calc("net_income")`, and the warm-up `calc`s on the household simulations in `household_reform`. They are side effects inside the engine only.
- File I/O is left out: the YAML reads of the entity hierarchy and the default household, and the `household_params.yaml` write. Their contents are given as values.
- Flask is left out: app construction, CORS, `after_request_func` and the 404 static-site handler that rewrites `index.html`. These are HTTP and file plumbing.
- The Google Cloud Storage client is left out. The bucket's contents are a `map` passed to the constructor. The hashing inside `get_cached_result`/`set_cached_result` is not part of this model, so the key is the triple (params, handler name, version) itself.
- The environment read of `POLICYENGINE_DEBUG` is replaced by an `Option<string>` input.
- The query string is a map with one string value per key. How a repeated key is collapsed is not modelled.
- `Server.PolicyEngine.Call`: the dictionary key of `api_endpoints` and the handler's `__name__` are one name here. The source uses the key for the route and `__name__` for the cache key and wrapper name, and these coincide for every country.
- `PopulationMetrics.PovertyRate`: requires a non-empty subgroup, and `PopulationMetrics.DeepPovertyRate` does too. Both also require the population mask to be as long as the indicator (`SubgroupDefined`). On an empty subgroup numpy returns NaN, and on a mask of another length boolean indexing raises IndexError; the model has neither NaN nor exceptions here.
- `PopulationMetrics.HeadlineMetrics`: requires non-empty, equally long person vectors. numpy returns NaN on empty ones and raises ValueError on mismatched lengths (unless one has length 1, which it broadcasts).
- `Countries.Country.Ubi`: requires a non-zero person total. With zero, numpy's division yields inf or NaN before `max`.
- `float(...)` conversions and floating-point rounding are not modelled. All arithmetic is exact on reals.
