/**
 * The interface to the tax/benefit simulation engine. The engine itself is not
 * part of this model: a simulation is known only through the values it
 * computes, and the engine is a function from the reform it is built with.
 */
module Simulation {
  import opened Values

  /** One application step of a reform; apart from its identity it is opaque. */
  datatype Step =
    | UseCurrentParameters          // use_current_parameters()
    | AddParameterFile(path: string) // add_parameter_file(path)
    | Provision(id: string)         // any other reform, e.g. one built from request parameters

  /**
   * A reform as the engine receives it: a single step, or a tuple of reforms
   * that are applied left to right (the empty tuple `()` applies nothing).
   */
  datatype Reform = Atom(step: Step) | Chain(parts: seq<Reform>)

  /** The order in which the engine applies the steps of a reform. */
  function Flatten(r: Reform): seq<Step>
    decreases r
  {
    match r
    case Atom(s) => [s]
    case Chain(parts) => FlattenAll(parts)
  }

  function FlattenAll(parts: seq<Reform>): seq<Step>
    decreases parts
  {
    if parts == [] then [] else Flatten(parts[0]) + FlattenAll(parts[1..])
  }

  /** Flattening a tuple of tuples is flattening their concatenation. */
  lemma {:induction false} FlattenAllAppend(xs: seq<Reform>, ys: seq<Reform>)
    ensures FlattenAll(xs + ys) == FlattenAll(xs) + FlattenAll(ys)
    decreases |xs|
  {
    if xs == [] {
      assert xs + ys == ys;
    } else {
      assert (xs + ys)[1..] == xs[1..] + ys;
      FlattenAllAppend(xs[1..], ys);
    }
  }

  /** Composing `(a, b)` applies every step of `a` before every step of `b`. */
  lemma ComposePair(a: Reform, b: Reform)
    ensures Flatten(Chain([a, b])) == Flatten(a) + Flatten(b)
  {
    assert [a, b][1..] == [b];
    assert [b][1..] == [];
    calc {
      Flatten(Chain([a, b]));
      FlattenAll([a, b]);
      Flatten(a) + FlattenAll([b]);
      Flatten(a) + (Flatten(b) + FlattenAll([]));
    }
  }

  /** Composition is associative: only the order of the steps matters to the engine. */
  lemma ComposeAssociative(a: Reform, b: Reform, c: Reform)
    ensures Flatten(Chain([Chain([a, b]), c])) == Flatten(Chain([a, Chain([b, c])]))
  {
    ComposePair(a, b);
    ComposePair(b, c);
    ComposePair(Chain([a, b]), c);
    ComposePair(a, Chain([b, c]));
  }

  /** `map_to` of `calc`: the variable's own entity, or mapped to persons. */
  datatype MapTo = Own | Person

  /**
   * A population simulation over the country's default dataset, known through
   * `evaluate`, which is `calc(variable, map_to)`: one value per entity of the dataset.
   */
  datatype Microsim = Microsim(evaluate: (string, MapTo) -> seq<real>)

  /** `Microsimulation(reform, dataset=default_dataset)`, for a fixed dataset. */
  type PopulationEngine = seq<Step> -> Microsim

  /** The household description an `IndividualSim` is populated with. */
  datatype Situation = Situation(household: Json, hierarchy: Json, entities: Json)

  /** An input forced with `set_input(variable, period, value)`. */
  datatype InputKey = InputKey(variable: string, period: int)

  /** A sweep of one input variable set up by `vary(variable, step)`. */
  datatype Sweep = Sweep(variable: string, step: real)

  /** Everything that determines what an individual simulation computes. */
  datatype HouseholdState = HouseholdState(
    situation: Situation,
    steps: seq<Step>,
    year: int,
    inputs: map<InputKey, seq<real>>,
    sweep: Option<Sweep>)

  /** `IndividualSim(...).calc(variable)`: one value per person, or per sweep point. */
  type HouseholdEngine = (HouseholdState, string) -> seq<real>
}
