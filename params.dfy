/**
 * SimulationParams (Simulator.h) and the text-to-number conversions that
 * fill it.  std::stod and std::stoi are foreign calls: they are parameters
 * of the model, returning None where the library throws.
 */
module Params {
  import opened Wrappers

  datatype SimulationParams = SimulationParams(
    cubeSize: real,
    numPoints: int,
    minFriction: real,
    maxFriction: real,
    numForces: int,
    minAcceleration: real,
    maxAcceleration: real,
    minVelocity: real,
    maxVelocity: real,
    minInitialVelocity: real,
    maxInitialVelocity: real,
    simulationTime: int,
    vtkOutputFile: string,
    enableVTKOutput: bool)

  /** The settings a configuration key can assign.  `VtkOutput` covers the
      file name together with the flag derived from it. */
  datatype Field =
    | CubeSize | NumPoints | MinFriction | MaxFriction | NumForces
    | MinAcceleration | MaxAcceleration | MinVelocity | MaxVelocity
    | MinInitialVelocity | MaxInitialVelocity | SimulationTime | VtkOutput

  /** std::stod and std::stoi, None where they throw
      (std::invalid_argument or std::out_of_range). */
  datatype Conversions = Conversions(toDouble: string -> Option<real>, toInt: string -> Option<int>)

  /** Whether `text` converts for the setting f: std::stoi for the three
      counts, std::stod for the other numbers; the output file takes any
      text. */
  predicate Converts(f: Field, text: string, conv: Conversions) {
    match f
    case NumPoints | NumForces | SimulationTime => conv.toInt(text).Some?
    case VtkOutput => true
    case _ => conv.toDouble(text).Some?
  }

  /** p holds, for the setting f, the value `text` converts to. */
  predicate Holds(p: SimulationParams, f: Field, text: string, conv: Conversions) {
    match f
    case CubeSize => conv.toDouble(text) == Some(p.cubeSize)
    case NumPoints => conv.toInt(text) == Some(p.numPoints)
    case MinFriction => conv.toDouble(text) == Some(p.minFriction)
    case MaxFriction => conv.toDouble(text) == Some(p.maxFriction)
    case NumForces => conv.toInt(text) == Some(p.numForces)
    case MinAcceleration => conv.toDouble(text) == Some(p.minAcceleration)
    case MaxAcceleration => conv.toDouble(text) == Some(p.maxAcceleration)
    case MinVelocity => conv.toDouble(text) == Some(p.minVelocity)
    case MaxVelocity => conv.toDouble(text) == Some(p.maxVelocity)
    case MinInitialVelocity => conv.toDouble(text) == Some(p.minInitialVelocity)
    case MaxInitialVelocity => conv.toDouble(text) == Some(p.maxInitialVelocity)
    case SimulationTime => conv.toInt(text) == Some(p.simulationTime)
    case VtkOutput => p.vtkOutputFile == text
  }

  /** p and q hold the same value for the setting f. */
  predicate SameField(p: SimulationParams, q: SimulationParams, f: Field) {
    match f
    case CubeSize => p.cubeSize == q.cubeSize
    case NumPoints => p.numPoints == q.numPoints
    case MinFriction => p.minFriction == q.minFriction
    case MaxFriction => p.maxFriction == q.maxFriction
    case NumForces => p.numForces == q.numForces
    case MinAcceleration => p.minAcceleration == q.minAcceleration
    case MaxAcceleration => p.maxAcceleration == q.maxAcceleration
    case MinVelocity => p.minVelocity == q.minVelocity
    case MaxVelocity => p.maxVelocity == q.maxVelocity
    case MinInitialVelocity => p.minInitialVelocity == q.minInitialVelocity
    case MaxInitialVelocity => p.maxInitialVelocity == q.maxInitialVelocity
    case SimulationTime => p.simulationTime == q.simulationTime
    case VtkOutput => p.vtkOutputFile == q.vtkOutputFile && p.enableVTKOutput == q.enableVTKOutput
  }

  lemma SameFieldReflexive(p: SimulationParams, f: Field)
    ensures SameField(p, p, f)
  {
  }

  lemma SameFieldSymmetric(p: SimulationParams, q: SimulationParams, f: Field)
    requires SameField(p, q, f)
    ensures SameField(q, p, f)
  {
  }

  lemma SameFieldTransitive(p: SimulationParams, q: SimulationParams, r: SimulationParams, f: Field)
    requires SameField(p, q, f) && SameField(q, r, f)
    ensures SameField(p, r, f)
  {
  }

  /** Records that agree on every setting are equal. */
  lemma SameFieldsEqual(p: SimulationParams, q: SimulationParams)
    requires forall f: Field :: SameField(p, q, f)
    ensures p == q
  {
    assert SameField(p, q, CubeSize) && SameField(p, q, NumPoints);
    assert SameField(p, q, MinFriction) && SameField(p, q, MaxFriction);
    assert SameField(p, q, NumForces) && SameField(p, q, MinAcceleration);
    assert SameField(p, q, MaxAcceleration) && SameField(p, q, MinVelocity);
    assert SameField(p, q, MaxVelocity) && SameField(p, q, MinInitialVelocity);
    assert SameField(p, q, MaxInitialVelocity) && SameField(p, q, SimulationTime);
    assert SameField(p, q, VtkOutput);
  }
}
