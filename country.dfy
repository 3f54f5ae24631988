/**
 * One configured jurisdiction: its default reform, its shared baseline
 * population simulation, its table of API endpoints, and the handlers that
 * compare a user reform against the baseline.
 */
module Countries {
  import opened Values
  import opened Simulation
  import opened PopulationMetrics

  /** An entry of `api_endpoints`, with the handler's exclude-from-cache marker. */
  datatype Endpoint = Endpoint(name: string, excludedFromCache: bool)

  /** `api_endpoints`, in insertion order, with the markers the handlers carry. */
  const ApiEndpoints: seq<Endpoint> := [
    Endpoint("household_reform", true),
    Endpoint("population_reform", false),
    Endpoint("ubi", false),
    Endpoint("parameters", true),
    Endpoint("entities", true),
    Endpoint("variables", true),
    Endpoint("default_household", true),
    Endpoint("population_breakdown", false)
  ]

  function ExcludedNames(table: seq<Endpoint>): set<string>
  {
    set e | e in table && e.excludedFromCache :: e.name
  }

  function CacheableNames(table: seq<Endpoint>): set<string>
  {
    set e | e in table && !e.excludedFromCache :: e.name
  }

  /** Eight distinct endpoints: five excluded from the cache, three cached. */
  lemma EndpointTable()
    ensures |ApiEndpoints| == 8
    ensures forall i, j :: 0 <= i < j < |ApiEndpoints| ==> ApiEndpoints[i].name != ApiEndpoints[j].name
    ensures ExcludedNames(ApiEndpoints)
            == {"household_reform", "parameters", "entities", "variables", "default_household"}
    ensures CacheableNames(ApiEndpoints) == {"population_reform", "ubi", "population_breakdown"}
  {
    var t := ApiEndpoints;
    assert t[0] in t && t[1] in t && t[2] in t && t[3] in t;
    assert t[4] in t && t[5] in t && t[6] in t && t[7] in t;
  }

  /**
   * The class attributes of one country's subclass, gathered into one record,
   * together with the collaborators this model leaves abstract.
   */
  datatype CountryConfig = CountryConfig(
    name: string,
    defaultReform: Reform,           // the class attribute `default_reform`
    parameterFile: Option<string>,   // `parameter_file`, None when there is none
    population: PopulationEngine,    // `Microsimulation` over `default_dataset`
    household: HouseholdEngine,      // `IndividualSim`
    results: ResultsConfig,          // `results_config`
    parameterTree: Json,             // what `get_PE_parameters` reads from the baseline
    variableList: Json,              // what `get_PE_variables` reads from the baseline
    entityList: Json,                // what `build_entities` reads from the baseline
    hierarchy: Json,                 // the entity hierarchy file's contents
    defaultHousehold: Json,          // the default household file's contents
    createReform: Params -> Reform,  // `create_reform(params, policyengine_parameters)`
    pctChange: (real, real) -> real) // `pct_change`

  /** The steps `add_parameter_file` contributes: none when there is no file. */
  function ParameterFileSteps(file: Option<string>): seq<Step>
  {
    if file.Some? then [AddParameterFile(file.value)] else []
  }

  /** The triple `__init__` stores as the instance's `default_reform`. */
  function DefaultReform(cfg: CountryConfig): (r: Reform)
    ensures Flatten(r) == [UseCurrentParameters] + ParameterFileSteps(cfg.parameterFile) + Flatten(cfg.defaultReform)
  {
    var file := if cfg.parameterFile.Some? then Atom(AddParameterFile(cfg.parameterFile.value)) else Chain([]);
    var parts := [Atom(UseCurrentParameters), file, cfg.defaultReform];
    assert parts == [Atom(UseCurrentParameters)] + [file] + [cfg.defaultReform];
    FlattenAllAppend([Atom(UseCurrentParameters)] + [file], [cfg.defaultReform]);
    FlattenAllAppend([Atom(UseCurrentParameters)], [file]);
    FlattenSingle(Atom(UseCurrentParameters));
    FlattenSingle(file);
    FlattenSingle(cfg.defaultReform);
    Chain(parts)
  }

  lemma FlattenSingle(r: Reform)
    ensures FlattenAll([r]) == Flatten(r)
  {
  }

  /** `max(0, revenue / persons)`: the per-person UBI a revenue can fund. */
  function UbiAmount(revenue: real, persons: real): (amount: real)
    requires persons != 0.0
    ensures amount >= 0.0
    ensures amount > 0.0 <==> revenue / persons > 0.0
    ensures amount == revenue / persons || amount == 0.0
    ensures persons > 0.0 && revenue >= 0.0 ==> amount == revenue / persons
    ensures persons > 0.0 && revenue < 0.0 ==> amount == 0.0
  {
    if revenue / persons > 0.0 then revenue / persons else 0.0
  }

  /** `x + 1` on a vector. */
  function PlusOne(v: seq<real>): seq<real>
  {
    seq(|v|, i requires 0 <= i < |v| => v[i] + 1.0)
  }

  const EmploymentIncome: string := "employment_income"
  const SimulationYear: int := 2021

  /** An individual simulation of one household, built per request. */
  class HouseholdSim {
    const engine: HouseholdEngine
    const situation: Situation
    const reform: Reform
    const year: int
    var inputs: map<InputKey, seq<real>>
    var sweep: Option<Sweep>

    /** `situation(IndividualSim(reform, year=year))`. */
    constructor (engine: HouseholdEngine, situation: Situation, reform: Reform, year: int)
      ensures this.engine == engine && this.situation == situation
      ensures this.reform == reform && this.year == year
      ensures inputs == map[] && sweep == None
    {
      this.engine := engine;
      this.situation := situation;
      this.reform := reform;
      this.year := year;
      inputs := map[];
      sweep := None;
    }

    function State(): HouseholdState
      reads this
    {
      HouseholdState(situation, Flatten(reform), year, inputs, sweep)
    }

    /** `calc(variable)`. */
    function Calc(variable: string): seq<real>
      reads this
    {
      engine(State(), variable)
    }

    /** `simulation.set_input(variable, period, value)`. */
    method SetInput(variable: string, period: int, value: seq<real>)
      modifies this
      ensures inputs == old(inputs)[InputKey(variable, period) := value]
      ensures sweep == old(sweep)
    {
      inputs := inputs[InputKey(variable, period) := value];
    }

    /** `vary(variable, step=step)`. */
    method Vary(variable: string, step: real)
      modifies this
      ensures sweep == Some(Sweep(variable, step))
      ensures inputs == old(inputs)
    {
      sweep := Some(Sweep(variable, step));
    }
  }

  /** The four individual simulations `household_reform` builds. */
  datatype HouseholdRun = HouseholdRun(
    baseline: HouseholdSim,
    reformed: HouseholdSim,
    baselineExtraEarnings: HouseholdSim,
    reformedExtraEarnings: HouseholdSim)

  /**
   * `extra` is `base` built again with the same situation, reform and year,
   * with only 2021 employment income forced to the unperturbed value plus one.
   */
  ghost predicate PerturbedCopy(extra: HouseholdSim, base: HouseholdSim)
    reads extra, base
  {
    var unperturbed := HouseholdState(base.situation, Flatten(base.reform), base.year, map[], None);
    && extra != base
    && extra.engine == base.engine
    && extra.situation == base.situation
    && extra.reform == base.reform
    && extra.year == base.year
    && extra.sweep == None
    && extra.inputs == map[InputKey(EmploymentIncome, SimulationYear)
                           := PlusOne(base.engine(unperturbed, EmploymentIncome))]
  }

  class Country {
    const config: CountryConfig
    const name: string
    var defaultReform: Reform
    var baseline: Microsim
    var policyengineParameters: Json
    var policyengineVariables: Json
    var apiEndpoints: seq<Endpoint>
    var entities: Json
    var defaultHouseholdData: Json

    /** The state `__init__` leaves behind, which no handler changes. */
    ghost predicate Valid()
      reads this
    {
      && name == config.name
      && defaultReform == DefaultReform(config)
      && baseline == config.population(Flatten(defaultReform))
      && apiEndpoints == ApiEndpoints
    }

    constructor (cfg: CountryConfig)
      ensures config == cfg && Valid()
      ensures Flatten(defaultReform)
              == [UseCurrentParameters] + ParameterFileSteps(cfg.parameterFile) + Flatten(cfg.defaultReform)
      ensures policyengineParameters == cfg.parameterTree
      ensures policyengineVariables == cfg.variableList
      ensures entities == JObj(map["entities" := cfg.entityList, "hierarchy" := cfg.hierarchy])
      ensures defaultHouseholdData == cfg.defaultHousehold
    {
      config := cfg;
      name := cfg.name;
      defaultReform := DefaultReform(cfg);
      baseline := cfg.population(Flatten(DefaultReform(cfg)));
      policyengineParameters := cfg.parameterTree;
      policyengineVariables := cfg.variableList;
      apiEndpoints := ApiEndpoints;
      entities := JObj(map["entities" := cfg.entityList, "hierarchy" := cfg.hierarchy]);
      defaultHouseholdData := cfg.defaultHousehold;
    }

    /** `_create_reform_sim`: the default reform composed with the user's. */
    function ReformSim(params: Params): (sim: Microsim)
      reads this
      ensures sim == config.population(Flatten(defaultReform) + Flatten(config.createReform(params)))
    {
      var reform := config.createReform(params);
      ComposePair(defaultReform, reform);
      config.population(Flatten(Chain([defaultReform, reform])))
    }

    /** `population_reform`, without its charts. */
    function PopulationReform(params: Params): (h: Headline)
      reads this
      requires HeadlineDefined(baseline, ReformSim(params), config.results)
      ensures h == HeadlineMetrics(
                     baseline,
                     config.population(Flatten(defaultReform) + Flatten(config.createReform(params))),
                     config.results, config.pctChange)
    {
      HeadlineMetrics(baseline, ReformSim(params), config.results, config.pctChange)
    }

    /** Total net income of the baseline minus that of `reformed`. */
    function Revenue(reformed: Microsim): real
      reads this
    {
      Sum(baseline.evaluate(config.results.netIncomeVariable, Own))
      - Sum(reformed.evaluate(config.results.netIncomeVariable, Own))
    }

    /** The baseline's total person count (sum of the person variable). */
    function PersonTotal(): real
      reads this
    {
      Sum(baseline.evaluate(config.results.personVariable, Own))
    }

    /** `ubi`: `{"UBI": max(0, revenue / persons)}`. */
    function Ubi(params: Params): (r: Json)
      reads this
      requires PersonTotal() != 0.0
      ensures r.JObj? && r.fields.Keys == {"UBI"} && r.fields["UBI"].JNum?
      ensures r.fields["UBI"].n >= 0.0
      ensures PersonTotal() > 0.0 && Revenue(ReformSim(params)) >= 0.0
              ==> r.fields["UBI"].n == Revenue(ReformSim(params)) / PersonTotal()
      ensures PersonTotal() > 0.0 && Revenue(ReformSim(params)) < 0.0 ==> r.fields["UBI"].n == 0.0
    {
      JObj(map["UBI" := JNum(UbiAmount(Revenue(ReformSim(params)), PersonTotal()))])
    }

    /** `parameters`. */
    function Parameters(params: Params): Json
      reads this
    {
      policyengineParameters
    }

    /** `entities`: the dictionary `__init__` stores over the method's name. */
    function Entities(params: Params): Json
      reads this
    {
      entities
    }

    /** `variables`. */
    function Variables(params: Params): Json
      reads this
    {
      policyengineVariables
    }

    /** `default_household`. */
    function DefaultHousehold(params: Params): Json
      reads this
    {
      defaultHouseholdData
    }

    /** `_create_situation`: fails as `params["household"]` does when the key is absent. */
    function CreateSituation(params: Params): (r: Result<Situation>)
      ensures r.Ok? <==> "household" in params
      ensures r.Ok? ==> r.value == Situation(params["household"], config.hierarchy, config.entityList)
    {
      if "household" in params
      then Ok(Situation(params["household"], config.hierarchy, config.entityList))
      else Err("KeyError: 'household'")
    }

    /** `_create_baseline_household_sim`. */
    method BaselineHouseholdSim(situation: Situation) returns (sim: HouseholdSim)
      ensures fresh(sim)
      ensures sim.engine == config.household && sim.situation == situation
      ensures sim.reform == defaultReform && sim.year == SimulationYear
      ensures sim.inputs == map[] && sim.sweep == None
    {
      sim := new HouseholdSim(config.household, situation, defaultReform, SimulationYear);
    }

    /** `_create_reform_household_sim`: the default reform composed with `reform`. */
    method ReformHouseholdSim(situation: Situation, reform: Reform) returns (sim: HouseholdSim)
      ensures fresh(sim)
      ensures sim.engine == config.household && sim.situation == situation
      ensures sim.reform == Chain([defaultReform, reform]) && sim.year == SimulationYear
      ensures Flatten(sim.reform) == Flatten(defaultReform) + Flatten(reform)
      ensures sim.inputs == map[] && sim.sweep == None
    {
      ComposePair(defaultReform, reform);
      sim := new HouseholdSim(config.household, situation, Chain([defaultReform, reform]), SimulationYear);
    }

    /**
     * `household_reform`, up to the point where the four simulations are
     * handed to the household charts and figures.
     */
    method HouseholdReform(params: Params) returns (r: Result<HouseholdRun>)
      ensures r.Err? <==> "household" !in params
      ensures r.Ok? ==>
        var run := r.value;
        var situation := CreateSituation(params).value;
        && fresh(run.baseline) && fresh(run.reformed)
        && fresh(run.baselineExtraEarnings) && fresh(run.reformedExtraEarnings)
        && run.baseline != run.reformed
        && run.baselineExtraEarnings != run.reformedExtraEarnings
        && run.baselineExtraEarnings != run.reformed && run.reformedExtraEarnings != run.baseline
        && run.baseline.engine == config.household && run.reformed.engine == config.household
        && run.baseline.year == SimulationYear && run.reformed.year == SimulationYear
        && run.baseline.situation == situation && run.reformed.situation == situation
        && run.baseline.reform == defaultReform
        && run.reformed.reform == Chain([defaultReform, config.createReform(params)])
        && PerturbedCopy(run.baselineExtraEarnings, run.baseline)
        && PerturbedCopy(run.reformedExtraEarnings, run.reformed)
        && run.baseline.inputs == map[] && run.reformed.inputs == map[]
        && run.baseline.sweep == Some(Sweep(EmploymentIncome, 100.0))
        && run.reformed.sweep == Some(Sweep(EmploymentIncome, 100.0))
    {
      var s := CreateSituation(params);
      if s.Err? {
        return Err(s.error);
      }
      var situation := s.value;
      var reform := config.createReform(params);
      var baseline := BaselineHouseholdSim(situation);
      var reformed := ReformHouseholdSim(situation, reform);
      var baselineExtra := BaselineHouseholdSim(situation);
      baselineExtra.SetInput(EmploymentIncome, SimulationYear, PlusOne(baseline.Calc(EmploymentIncome)));
      var reformedExtra := ReformHouseholdSim(situation, reform);
      reformedExtra.SetInput(EmploymentIncome, SimulationYear, PlusOne(reformed.Calc(EmploymentIncome)));
      baseline.Vary(EmploymentIncome, 100.0);
      reformed.Vary(EmploymentIncome, 100.0);
      r := Ok(HouseholdRun(baseline, reformed, baselineExtra, reformedExtra));
    }
  }

  // ---------------------------------------------------------------------------
  // Properties
  // ---------------------------------------------------------------------------

  /** A user reform that leaves total net income unchanged funds no UBI. */
  lemma UbiOfRevenueNeutralReform(c: Country, params: Params)
    requires c.PersonTotal() != 0.0
    requires Sum(c.ReformSim(params).evaluate(c.config.results.netIncomeVariable, Own))
             == Sum(c.baseline.evaluate(c.config.results.netIncomeVariable, Own))
    ensures c.Ubi(params) == JObj(map["UBI" := JNum(0.0)])
  {
  }

  /** A user reform with no steps reproduces the baseline, so it funds no UBI. */
  lemma UbiOfEmptyReform(c: Country, params: Params)
    requires c.Valid() && c.PersonTotal() != 0.0
    requires Flatten(c.config.createReform(params)) == []
    ensures c.ReformSim(params) == c.baseline
    ensures c.Ubi(params) == JObj(map["UBI" := JNum(0.0)])
  {
    assert Flatten(c.defaultReform) + [] == Flatten(c.defaultReform);
  }

  /** The endpoints that return stored reference data ignore their parameters. */
  lemma StaticEndpointsIgnoreParams(c: Country, p: Params, q: Params)
    ensures c.Parameters(p) == c.Parameters(q) == c.policyengineParameters
    ensures c.Entities(p) == c.Entities(q) == c.entities
    ensures c.Variables(p) == c.Variables(q) == c.policyengineVariables
    ensures c.DefaultHousehold(p) == c.DefaultHousehold(q) == c.defaultHouseholdData
  {
  }
}
