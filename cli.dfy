/**
 * main (main.cpp): the argument count dispatch, the configuration-file
 * mode, the positional command-line mode, the two validation gates and the
 * launch of the simulation.  argv is a sequence of strings that includes
 * argv[0]; the file system is a function from file names to their lines,
 * None where the file cannot be opened.
 */
module Cli {
  import opened Wrappers
  import opened Vectors
  import opened Points
  import opened Params
  import opened ConfigParser
  import opened VtkWriter
  import opened Simulation

  /** The argument counts main proceeds with: a configuration file, twelve
      positional values, or twelve values and a VTK output file name. */
  predicate AcceptedArgc(argc: nat) {
    argc == 2 || argc == 13 || argc == 14
  }

  /** The setting the positional argument argv[i] fills, in the order the
      usage text lists them. */
  function Column(i: nat): Field
    requires 1 <= i <= 12
  {
    [CubeSize, NumPoints, MinFriction, MaxFriction, NumForces, MinAcceleration,
     MaxAcceleration, MinVelocity, MaxVelocity, MinInitialVelocity, MaxInitialVelocity,
     SimulationTime][i - 1]
  }

  /** Command-line mode: argv[1..12] converted in order, the VTK flag set
      exactly when a thirteenth value is present and the file name taken
      from it.  None where a conversion throws. */
  function Positional(args: seq<string>, conv: Conversions): Option<SimulationParams>
    requires |args| == 13 || |args| == 14
  {
    var d := conv.toDouble;
    var n := conv.toInt;
    if d(args[1]).Some? && n(args[2]).Some? && d(args[3]).Some? && d(args[4]).Some?
      && n(args[5]).Some? && d(args[6]).Some? && d(args[7]).Some? && d(args[8]).Some?
      && d(args[9]).Some? && d(args[10]).Some? && d(args[11]).Some? && n(args[12]).Some?
    then
      var vtk := |args| == 14;
      Some(SimulationParams(
        d(args[1]).value, n(args[2]).value, d(args[3]).value, d(args[4]).value,
        n(args[5]).value, d(args[6]).value, d(args[7]).value, d(args[8]).value,
        d(args[9]).value, d(args[10]).value, d(args[11]).value, n(args[12]).value,
        if vtk then args[13] else "", vtk))
    else
      None
  }

  /** Configuration-file mode: the parameters parseConfigFile leaves when it
      succeeds. */
  function FromConfig(file: Option<seq<string>>, initial: SimulationParams, conv: Conversions): Option<SimulationParams> {
    match file
    case None => None
    case Some(lines) =>
      var s := ParseFrom(Start(initial), lines, 1, conv);
      if s.failed then None else Some(s.params)
  }

  /** The parameters main holds once the arguments are read, or None where
      it has already returned 1.  `garbage` stands for the fields of the
      default-initialised SimulationParams, which C++ leaves indeterminate
      except the empty std::string. */
  function ReadParams(args: seq<string>, files: string -> Option<seq<string>>,
                      garbage: SimulationParams, conv: Conversions): Option<SimulationParams>
  {
    if !AcceptedArgc(|args|) then None
    else if |args| == 2 then
      if IsConfigFile(args[1]) then FromConfig(files(args[1]), garbage.(vtkOutputFile := ""), conv) else None
    else Positional(args, conv)
  }

  /** Why main rejects the parameters it has read. */
  datatype Rejection = NotPositive | RangeInverted

  /** The two gates, in order: positive values (T may be 0), then no
      minimum above its maximum. */
  function Validate(p: SimulationParams): (r: Option<Rejection>)
    ensures r.None? <==> ValuesPositive(p) && RangesOrdered(p)
  {
    if p.cubeSize <= 0.0 || p.numPoints <= 0 || p.numForces <= 0 || p.simulationTime < 0 then
      Some(NotPositive)
    else if p.minFriction > p.maxFriction || p.minAcceleration > p.maxAcceleration
         || p.minVelocity > p.maxVelocity || p.minInitialVelocity > p.maxInitialVelocity then
      Some(RangeInverted)
    else
      None
  }

  /** "All values must be positive (except T which can be 0)." */
  predicate ValuesPositive(p: SimulationParams) {
    p.cubeSize > 0.0 && p.numPoints >= 1 && p.numForces >= 1 && p.simulationTime >= 0
  }

  /** "Minimum values cannot be greater than maximum values." */
  predicate RangesOrdered(p: SimulationParams) {
    p.minFriction <= p.maxFriction && p.minAcceleration <= p.maxAcceleration &&
    p.minVelocity <= p.maxVelocity && p.minInitialVelocity <= p.maxInitialVelocity
  }

  /** The parameters the simulation is launched with, or None where main
      returns 1 without launching it. */
  function Launch(args: seq<string>, files: string -> Option<seq<string>>,
                  garbage: SimulationParams, conv: Conversions): Option<SimulationParams>
  {
    match ReadParams(args, files, garbage, conv)
    case None => None
    case Some(p) => if Validate(p).None? then Some(p) else None
  }

  /** The gates accept exactly the parameters that are positive (T may be
      0, equal bounds are allowed) and ordered, and the ordering gate is
      reached only by positive parameters. */
  lemma ValidateAccepts(p: SimulationParams)
    ensures Validate(p).None? <==> ValuesPositive(p) && RangesOrdered(p)
    ensures Validate(p) == Some(RangeInverted) <==> ValuesPositive(p) && !RangesOrdered(p)
  {
  }

  /** Argument counts other than 2, 13 and 14 launch nothing. */
  lemma ArgcRejected(args: seq<string>, files: string -> Option<seq<string>>, garbage: SimulationParams, conv: Conversions)
    ensures Launch(args, files, garbage, conv).Some? ==> AcceptedArgc(|args|)
  {
  }

  /** A single argument that is not a configuration file name launches
      nothing; one that is launches the parameters its file parses to. */
  lemma ConfigModeRule(args: seq<string>, files: string -> Option<seq<string>>, garbage: SimulationParams, conv: Conversions)
    requires |args| == 2
    ensures !IsConfigFile(args[1]) ==> Launch(args, files, garbage, conv) == None
    ensures files(args[1]).None? ==> Launch(args, files, garbage, conv) == None
    ensures IsConfigFile(args[1]) && files(args[1]).Some? ==>
      var s := ParseFrom(Start(garbage), files(args[1]).value, 1, conv);
      Launch(args, files, garbage, conv) ==
        if !s.failed && Validate(s.params).None? then Some(s.params) else None
  {
    assert Start(garbage.(vtkOutputFile := "")) == Start(garbage);
  }

  /** The result exists exactly when every positional conversion
      succeeds. */
  lemma PositionalDefined(args: seq<string>, conv: Conversions)
    requires |args| == 13 || |args| == 14
    ensures Positional(args, conv).Some? <==> forall i | 1 <= i <= 12 :: Converts(Column(i), args[i], conv)
  {
    if forall i | 1 <= i <= 12 :: Converts(Column(i), args[i], conv) {
      assert Converts(Column(1), args[1], conv) && Converts(Column(2), args[2], conv);
      assert Converts(Column(3), args[3], conv) && Converts(Column(4), args[4], conv);
      assert Converts(Column(5), args[5], conv) && Converts(Column(6), args[6], conv);
      assert Converts(Column(7), args[7], conv) && Converts(Column(8), args[8], conv);
      assert Converts(Column(9), args[9], conv) && Converts(Column(10), args[10], conv);
      assert Converts(Column(11), args[11], conv) && Converts(Column(12), args[12], conv);
    }
    if Positional(args, conv).Some? {
      forall i | 1 <= i <= 12
        ensures Converts(Column(i), args[i], conv)
      {
        PositionalColumn(args, conv, i);
      }
    }
  }

  /** Each positional argument lands in its setting, converted by that
      setting's conversion. */
  lemma PositionalMapping(args: seq<string>, conv: Conversions)
    requires |args| == 13 || |args| == 14
    ensures Positional(args, conv).Some? ==>
      forall i | 1 <= i <= 12 :: Holds(Positional(args, conv).value, Column(i), args[i], conv)
  {
    if Positional(args, conv).Some? {
      forall i | 1 <= i <= 12
        ensures Holds(Positional(args, conv).value, Column(i), args[i], conv)
      {
        PositionalColumn(args, conv, i);
      }
    }
  }

  /** Argument i, one column at a time. */
  lemma PositionalColumn(args: seq<string>, conv: Conversions, i: nat)
    requires |args| == 13 || |args| == 14
    requires 1 <= i <= 12 && Positional(args, conv).Some?
    ensures Converts(Column(i), args[i], conv)
    ensures Holds(Positional(args, conv).value, Column(i), args[i], conv)
  {
    var c := [CubeSize, NumPoints, MinFriction, MaxFriction, NumForces, MinAcceleration,
      MaxAcceleration, MinVelocity, MaxVelocity, MinInitialVelocity, MaxInitialVelocity,
      SimulationTime];
    assert Column(i) == c[i - 1];
  }

  /** The positional columns name twelve different settings: every setting
      but the VTK output is read from exactly one argument. */
  lemma ColumnsDistinct(i: nat, j: nat)
    requires 1 <= i <= 12 && 1 <= j <= 12
    ensures Column(i) == Column(j) ==> i == j
    ensures Column(i) != VtkOutput
  {
  }

  /** In command-line mode the VTK flag is set exactly with a thirteenth
      value, which is then the file name; without it the name is empty. */
  lemma VtkFlagRule(args: seq<string>, conv: Conversions)
    requires |args| == 13 || |args| == 14
    ensures Positional(args, conv).Some? ==>
      var p := Positional(args, conv).value;
      p.enableVTKOutput == (|args| == 14) &&
      p.vtkOutputFile == (if |args| == 14 then args[13] else "")
  {
  }

  /** A failing conversion of any positional argument launches nothing. */
  lemma ConversionFailureRejects(args: seq<string>, files: string -> Option<seq<string>>,
                                 garbage: SimulationParams, conv: Conversions, i: nat)
    requires |args| == 13 || |args| == 14
    requires 1 <= i <= 12 && !Converts(Column(i), args[i], conv)
    ensures Launch(args, files, garbage, conv) == None
  {
    PositionalDefined(args, conv);
  }

  /** Launched parameters meet what the Simulator needs: non-negative
      counts (reserve) and ordered ranges for the draws. */
  lemma LaunchedIsValid(args: seq<string>, files: string -> Option<seq<string>>, garbage: SimulationParams, conv: Conversions)
    requires Launch(args, files, garbage, conv).Some?
    ensures var p := Launch(args, files, garbage, conv).value;
      ValuesPositive(p) && RangesOrdered(p) && p.numForces >= 0 && p.numPoints >= 0 &&
      TickCount(p.simulationTime) == p.simulationTime + 1
  {
    ValidateAccepts(Launch(args, files, garbage, conv).value);
  }

  /** Command-line mode, statement by statement: each argument converted
      in order, the first failure ending the reading. */
  method ReadPositional(args: seq<string>, garbage: SimulationParams, conv: Conversions) returns (r: Option<SimulationParams>)
    requires |args| == 13 || |args| == 14
    ensures r == Positional(args, conv)
  {
    var params := garbage;
    var x := conv.toDouble(args[1]);
    if x.None? { return None; }
    params := params.(cubeSize := x.value);
    var n := conv.toInt(args[2]);
    if n.None? { return None; }
    params := params.(numPoints := n.value);
    x := conv.toDouble(args[3]);
    if x.None? { return None; }
    params := params.(minFriction := x.value);
    x := conv.toDouble(args[4]);
    if x.None? { return None; }
    params := params.(maxFriction := x.value);
    n := conv.toInt(args[5]);
    if n.None? { return None; }
    params := params.(numForces := n.value);
    x := conv.toDouble(args[6]);
    if x.None? { return None; }
    params := params.(minAcceleration := x.value);
    x := conv.toDouble(args[7]);
    if x.None? { return None; }
    params := params.(maxAcceleration := x.value);
    x := conv.toDouble(args[8]);
    if x.None? { return None; }
    params := params.(minVelocity := x.value);
    x := conv.toDouble(args[9]);
    if x.None? { return None; }
    params := params.(maxVelocity := x.value);
    x := conv.toDouble(args[10]);
    if x.None? { return None; }
    params := params.(minInitialVelocity := x.value);
    x := conv.toDouble(args[11]);
    if x.None? { return None; }
    params := params.(maxInitialVelocity := x.value);
    n := conv.toInt(args[12]);
    if n.None? { return None; }
    params := params.(simulationTime := n.value);
    params := params.(enableVTKOutput := |args| == 14);
    params := params.(vtkOutputFile := if params.enableVTKOutput then args[13] else "");
    return Some(params);
  }

  /** The argument handling of main, up to the validation gates: None
      where main has already returned 1. */
  method ReadArguments(args: seq<string>, files: string -> Option<seq<string>>, garbage: SimulationParams,
                       conv: Conversions) returns (r: Option<SimulationParams>)
    ensures r == ReadParams(args, files, garbage, conv)
  {
    if !(|args| == 2 || |args| == 13 || |args| == 14) {
      return None;
    }
    var params := garbage.(vtkOutputFile := "");
    if |args| == 2 {
      var arg := args[1];
      if IsConfigFile(arg) {
        var ok, result, diagnostics := ParseConfigFile(files(arg), params, conv);
        if !ok {
          return None;
        }
        return Some(result);
      } else {
        return None;
      }
    }
    r := ReadPositional(args, params, conv);
  }

  /** The point states a run records for `params`: the points drawn from
      the tape after the forces, after each of the T + 1 ticks. */
  function RunHistory(params: SimulationParams, tape: nat -> real, sqrt: real -> real,
                      update: (PointState, real) -> PointState): seq<seq<PointState>>
    requires IsSqrt(sqrt) && ValuesPositive(params)
  {
    var forces := ForcesFrom(params, tape, sqrt, 0, params.numForces);
    var points := PointsFrom(params, tape, forces, DrawsPerForce * params.numForces, params.numPoints);
    History(points, update, params.simulationTime + 1)
  }

  lemma RunHistoryOf(params: SimulationParams, tape: nat -> real, sqrt: real -> real,
                     update: (PointState, real) -> PointState, points: seq<PointState>)
    requires IsSqrt(sqrt) && ValuesPositive(params)
    requires points == PointsFrom(params, tape, ForcesFrom(params, tape, sqrt, 0, params.numForces),
                                  DrawsPerForce * params.numForces, params.numPoints)
    ensures RunHistory(params, tape, sqrt, update) == History(points, update, TickCount(params.simulationTime))
  {
  }

  /** Simulator simulator(params); simulator.simulate(); for parameters
      that passed the gates: the run writes its history twice over, once
      tick by tick and once at the end, and a collection of T + 1
      entries. */
  method Run(params: SimulationParams, tape: nat -> real, sqrt: real -> real,
             update: (PointState, real) -> PointState)
    returns (written: seq<VtpFile>, manifest: Option<Manifest>)
    requires IsSqrt(sqrt) && ValuesPositive(params)
    ensures params.enableVTKOutput && params.vtkOutputFile != "" ==>
      var history := RunHistory(params, tape, sqrt, update);
      written == Snapshots(history, params.vtkOutputFile) + Snapshots(history, params.vtkOutputFile) &&
      manifest == Some(Collection(params.vtkOutputFile, params.simulationTime + 1))
    ensures !(params.enableVTKOutput && params.vtkOutputFile != "") ==> written == [] && manifest == None
  {
    var simulator := new Simulator(params, tape, sqrt);
    RunHistoryOf(params, tape, sqrt, update, simulator.points);
    written, manifest := simulator.Simulate(update);
  }

  /** main(argc, argv): 1 unless the arguments are read and both gates
      pass, in which case the simulator is built and run and 0 is
      returned.  The VTK files and the collection are what the run writes. */
  method RunMain(args: seq<string>, files: string -> Option<seq<string>>, garbage: SimulationParams,
                 conv: Conversions, tape: nat -> real, sqrt: real -> real,
                 update: (PointState, real) -> PointState)
    returns (exitCode: int, launched: Option<SimulationParams>, written: seq<VtpFile>, manifest: Option<Manifest>)
    requires IsSqrt(sqrt)
    ensures launched == Launch(args, files, garbage, conv)
    ensures exitCode == if launched.Some? then 0 else 1
    ensures launched.Some? && launched.value.enableVTKOutput && launched.value.vtkOutputFile != "" ==>
      var history := RunHistory(launched.value, tape, sqrt, update);
      written == Snapshots(history, launched.value.vtkOutputFile) + Snapshots(history, launched.value.vtkOutputFile) &&
      manifest == Some(Collection(launched.value.vtkOutputFile, launched.value.simulationTime + 1))
    ensures !(launched.Some? && launched.value.enableVTKOutput && launched.value.vtkOutputFile != "") ==>
      written == [] && manifest == None
  {
    var read := ReadArguments(args, files, garbage, conv);
    if read.None? {
      return 1, None, [], None;
    }
    var params := read.value;
    if params.cubeSize <= 0.0 || params.numPoints <= 0 || params.numForces <= 0 || params.simulationTime < 0 {
      return 1, None, [], None;
    }
    if params.minFriction > params.maxFriction || params.minAcceleration > params.maxAcceleration
       || params.minVelocity > params.maxVelocity || params.minInitialVelocity > params.maxInitialVelocity {
      return 1, None, [], None;
    }
    written, manifest := Run(params, tape, sqrt, update);
    return 0, Some(params), written, manifest;
  }
}
