# 3D point simulator: a Dafny model

This project models the core of 3dPointSimulator, a C++ program that
simulates point masses inside a cube. It models these parts:

- Reading the parameters, either from a configuration file
  (`key = value` lines) or from twelve or thirteen positional arguments.
- The two validation gates that run before anything is launched.
- Building a shared set of random forces, then the points. Each point is
  seeded with one generated force per force.
- Advancing every point for `T + 1` one-second ticks of 100 micro-steps.
- Optionally recording a snapshot after every tick and exporting the
  snapshots as `.vtp` files, together with a ParaView `.pvd` collection.

Modules follow the source files:

| module | file | source |
|---|---|---|
| `Wrappers` | `wrappers.dfy` | `Option` |
| `Vectors` | `vectors.dfy` | `Vector3D.h` |
| `Random` | `random.dfy` | `uniform_real_distribution` over the engine |
| `Forces` | `forces.dfy` | `Force.h`, `Force.cpp` |
| `Points` | `points.dfy` | `Point.h`, `Point.cpp` |
| `Params` | `params.dfy` | `SimulationParams` in `Simulator.h` |
| `ConfigParser` | `config_parser.dfy` | `ConfigParser.cpp` |
| `VtkWriter` | `vtk_writer.dfy` | `VTKWriter.cpp` |
| `Simulation` | `simulator.dfy` | `Simulator.cpp` |
| `Cli` | `cli.dfy` | `main.cpp` |

Modelling choices:

- **Numbers.** Doubles are `real`. `std::sqrt` is a parameter `sqrt`
  restricted by `IsSqrt`: it must return the non-negative root of a
  non-negative argument.
- **Randomness.** The `std::mt19937` engine is a tape `nat -> real` of
  canonical samples plus a draw counter, held by the class
  `Simulation.Engine`. `uniform_real_distribution(a, b)` on a sample `u`
  is `a + (b - a) * u`. For a fixed tape, every draw of the simulator is
  determined. With a canonical tape (every sample in `[0, 1)`), every draw
  with ordered bounds is proved to lie in its range.
- **Conversions.** `std::stod` and `std::stoi` are the `Conversions`
  parameter. They return `None` where the library throws.
- **Files.** A file to read is its sequence of lines, or `None` when it
  cannot be opened. A file written is a value (`VtpFile`, `Manifest`) that
  the writing method returns.
- **State.** `Point` and `Simulator` update their fields in place, so they
  are classes. `std::vector<Point>` holds copies, so the simulator's
  points and their history are sequences of `PointState` values.
- **Point::update.** Simulator.cpp:65 calls `Point::update(dt)`, and
  Simulator.cpp:23-24 call `setVelocityLimits` and `setAccelerationLimits`;
  Point.h declares none of the three. `update` is the function given to
  `Simulate`.
- **Force draws.** Simulator.cpp calls `force.generateForce(rng)` on the
  simulator's engine. Force.h declares a `generateForce()` with its own
  static engine. The model follows the Simulator.cpp call, so each
  generated force takes the next sample of the simulator's engine.
- **Case of the config keys.** `parseLine` lowercases the key before
  `parseConfigFile` compares it. The one-letter aliases `L`, `N`, `M` and
  `T` are written in upper case, so they can never match. A line
  `N = 10` is reported as the unknown parameter `n`. The lower-case
  aliases `a1`, `amin`, `v0max` and the others do work. The model keeps
  this behaviour, and `ConfigParser.AliasesNeverMatch` and
  `ConfigParser.AliasLineIsUnknown` state it.

## Model

| member | source | states |
|---|---|---|
| Vectors.Zero | Vector3D.h:8 | definition: the default vector (0, 0, 0); `AddLaws` shows it is the identity of `+` |
| Vectors.Add | Vector3D.h:11-13 | definition: the component-wise sum; its laws are `AddLaws` |
| Vectors.Sub | Vector3D.h:15-17 | definition: the component-wise difference; `AddLaws` shows it undoes `+` |
| Vectors.Scale | Vector3D.h:19-21 | definition: each component times the scalar; its laws are `ScaleLaws` |
| Vectors.Magnitude | Vector3D.h:30-32 | the magnitude is non-negative and its square is x² + y² + z² |
| Vectors.MagnitudePositive | Vector3D.h:30-40 | the magnitude is positive exactly when the vector is not the zero vector, which is the branch `normalized()` takes |
| Vectors.Normalized | Vector3D.h:34-40 | definition: each component divided by the magnitude when it is positive, otherwise the zero vector; characterised by the four lemmas below |
| Vectors.NormalizedZero | Vector3D.h:34-40 | normalising the zero vector gives the zero vector, not a division by zero |
| Vectors.NormalizedIsUnit | Vector3D.h:34-40 | a non-zero vector normalises to a vector of squared norm 1 and magnitude 1 |
| Vectors.NormalizedScalesBack | Vector3D.h:34-40 | the normalised vector times the original magnitude is the original vector, so direction is kept |
| Vectors.NormalizedIdempotent | Vector3D.h:34-40 | normalising twice is the same as normalising once |
| Vectors.AddLaws | Vector3D.h:11-17 | `+` has the zero vector as identity and is commutative and associative; `-` undoes `+` |
| Vectors.ScaleLaws | Vector3D.h:19-21 | `* scalar` by 0 gives zero and by 1 gives the vector; it distributes over `+` and over a sum of scalars and composes by multiplication |
| Vectors.AddAssign | Vector3D.h:23-28 | `+=` leaves `self + other`, from which subtracting `other` gives back the old value |
| Random.Uniform | Simulator.cpp:95-98 | definition: `uniform_real_distribution(a, b)` on a canonical sample `u` is `a + (b - a) * u`; characterised by the two lemmas below |
| Random.UniformInRange | Simulator.cpp:95-98 | for `a <= b` and a canonical sample, the draw lies in `[a, b]`, and below `b` when `a < b` |
| Random.UniformDegenerate | Simulator.cpp:95-98 | a draw from `[a, a]` is `a` whatever the sample |
| Forces.DefaultForce | Force.h:10 | definition: zero direction and both magnitudes 0; `GenerateForceZeroDirection` shows it only ever generates the zero vector |
| Forces.MakeForce | Force.h:11-12 | definition: the normalised direction and the two magnitudes as given, unchecked; characterised by `MakeForceDirection` |
| Forces.MakeForceDirection | Force.h:11-12 | the constructor keeps both magnitudes; its direction is zero for a zero argument, otherwise a unit vector that scales back to the argument |
| Forces.GenerateForce | Force.cpp:4-11 | definition: the direction scaled by the uniform draw between the two magnitudes; characterised by the three lemmas below |
| Forces.GenerateForceIsDraw | Force.cpp:4-11 | with `minMagnitude <= maxMagnitude`, a generated force is the direction scaled by a magnitude within those bounds |
| Forces.GenerateForceZeroDirection | Force.cpp:4-11 | a force with a zero direction always generates the zero vector |
| Forces.GenerateForceFixedMagnitude | Force.cpp:4-11 | with equal bounds, the generated force is the direction times that magnitude, whatever the sample |
| Points.TotalAcceleration | Point.cpp:4-5 | definition: the acceleration plus the velocity times `-frictionCoefficient`; `FrictionlessIgnoresVelocity` and `AdvancedDisplacement` state its effect |
| Points.Advanced | Point.cpp:3-9 | definition: the closed form of uniformly accelerated motion from the initial velocity, with friction taken from the current velocity; characterised by the three lemmas below |
| Points.AdvancedByZero | Point.cpp:3-9 | `updatePosition(0)` keeps the position and resets the velocity to the initial velocity |
| Points.AdvancedKeeps | Point.cpp:3-9 | `updatePosition` keeps the acceleration, the initial velocity and the friction; the new velocity is the initial velocity, not the current one, plus the total acceleration times `time` |
| Points.AdvancedDisplacement | Point.cpp:3-9 | the displacement of `updatePosition(time)` is `time` times the mean of the initial and new velocities, the closed form of uniformly accelerated motion |
| Points.FrictionlessIgnoresVelocity | Point.cpp:3-9 | without friction, the current velocity has no influence on the update |
| Points.Accumulated | Simulator.cpp:26-29 | definition: `applyForce` (`+=`) with each generated force in order; characterised by the four lemmas below |
| Points.AccumulatedIsSum | Point.cpp:11-13 | applying a sequence of forces adds their sum to the starting acceleration |
| Points.AccumulatedRemove | Point.cpp:11-13 | one force can be taken out of the sequence and added at the end |
| Points.AccumulatedPermutation | Point.cpp:11-13 | the order in which forces are applied does not matter: permuted sequences give the same acceleration |
| Points.AccumulatedZeroForce | Point.cpp:11-13 | applying a zero force changes nothing |
| Points.DefaultState | Point.h:12 | definition: `Point()`, all vectors zero and friction 0; the state `Point.Default` sets |
| Points.Point.Default | Point.h:12 | `Point()` is all zero vectors with friction 0 |
| Points.Point.constructor | Point.h:13-14 | the velocity and the initial velocity both take `vel`; the other fields take their arguments |
| Points.Point.ApplyForce | Point.cpp:11-13 | `applyForce` adds the force to the acceleration and changes no other field |
| Points.Point.UpdatePosition | Point.cpp:3-9 | `updatePosition` moves the point to the closed-form state `Advanced`, whose properties are the lemmas above |
| Params.Converts | ConfigParser.cpp:35-61 | definition: `std::stoi` for the three counts, `std::stod` for the other numbers, any text for the file name; `Assign` succeeds exactly when it holds |
| Params.Holds | ConfigParser.cpp:35-61 | definition: the record holds, for the setting, the value the text converts to; stated by `Assign` and `PositionalMapping` |
| Params.SameFieldsEqual | Simulator.h:7-22 | two parameter records that agree on every setting are equal, so the settings cover the whole record |
| ConfigParser.Lowercase | ConfigParser.cpp:108 | definition: `::tolower` on each character, changing only `A`-`Z` as in the C locale; characterised by `LowercaseShape` |
| ConfigParser.LowercaseShape | ConfigParser.cpp:108 | lowercasing keeps the length, leaves no upper-case letter and keeps every space and every `=` where it was |
| ConfigParser.TrimLeft | ConfigParser.cpp:88-90 | definition: the text from the first non-space character on; located by `FindFirstNonSpace` |
| ConfigParser.TrimRight | ConfigParser.cpp:91-93 | definition: the text up to the last non-space character; located by `FindEndOfNonSpace` |
| ConfigParser.Trimmed | ConfigParser.cpp:87-94 | definition: both ends trimmed; characterised by the two lemmas below and computed by `Trim` |
| ConfigParser.TrimmedIsSlice | ConfigParser.cpp:87-94 | `trim` leaves a contiguous slice with no space at either end, and everything cut off is space |
| ConfigParser.TrimIdempotent | ConfigParser.cpp:87-94 | trimming twice is the same as trimming once |
| ConfigParser.Trim | ConfigParser.cpp:87-94 | the two erase loops together compute the trimmed string |
| ConfigParser.FindFirstNonSpace | ConfigParser.cpp:88-90 | the first `find_if` stops where the left-trimmed suffix starts |
| ConfigParser.FindEndOfNonSpace | ConfigParser.cpp:91-93 | the reverse `find_if` stops where the right-trimmed prefix ends |
| ConfigParser.FindFirst | ConfigParser.cpp:97 | definition: `find`, the first index of the character or None for `npos`; characterised by `FindFirstFinds` |
| ConfigParser.FindLast | ConfigParser.cpp:76 | definition: `find_last_of`, the last index of the character or None for `npos`; characterised by `FindLastFinds` |
| ConfigParser.FindFirstFinds | ConfigParser.cpp:97 | `find('=')` returns npos exactly when there is no `=`, and otherwise the first one |
| ConfigParser.FindLastFinds | ConfigParser.cpp:76 | `find_last_of('.')` returns npos exactly when there is no `.`, and otherwise the last one |
| ConfigParser.ParseLine | ConfigParser.cpp:96-111 | definition: split at the first `=`, trim both sides, lowercase the key, `("", "")` without `=`; characterised by the three lemmas below |
| ConfigParser.ParseLineWithoutEquals | ConfigParser.cpp:97-100 | a line without `=` gives an empty key and value |
| ConfigParser.ParseLineSplit | ConfigParser.cpp:96-111 | `k = v` with no `=` in `k` splits at that `=` into the trimmed, lowercased key and the trimmed value; the value may contain `=` |
| ConfigParser.ParseLineShape | ConfigParser.cpp:96-111 | a parsed key has no `=` and no upper-case letter; key and value are both trimmed |
| ConfigParser.IsConfigFile | ConfigParser.cpp:75-85 | definition: the text after the last `.`, lowercased, is `cfg`, `config` or `conf`; characterised by the two lemmas below |
| ConfigParser.IsConfigFileNeedsDot | ConfigParser.cpp:76-79 | a name without `.` is never a configuration file |
| ConfigParser.IsConfigFileByExtension | ConfigParser.cpp:75-85 | `stem.ext` is a configuration file exactly when `ext`, lowercased, is `cfg`, `config` or `conf` |
| ConfigParser.UppercaseExtensionAccepted | ConfigParser.cpp:81-84 | the extension is compared case-insensitively (`x.CFG`) |
| ConfigParser.InnerExtensionIgnored | ConfigParser.cpp:76-84 | only the last extension counts (`x.cfg.txt` is rejected) |
| ConfigParser.EmptyExtensionRejected | ConfigParser.cpp:81-84 | a name ending in `.` is rejected |
| ConfigParser.FieldOf | ConfigParser.cpp:35-62 | definition: the key table, each long name and its alias (`L`, `N`, `a1`, `a2`, `M`, `amin`, `amax`, `vmin`, `vmax`, `v0min`, `v0max`, `T`) as written, and `vtk_output_file`; None for any other key; `AliasesNeverMatch` shows the upper-case aliases are dead |
| ConfigParser.Assign | ConfigParser.cpp:35-61 | assigning a setting succeeds exactly when its conversion does, gives the setting the converted value, and changes no other setting |
| ConfigParser.AssignIgnoresOldValue | ConfigParser.cpp:35-61 | the value a setting receives does not depend on its previous value |
| ConfigParser.Start | ConfigParser.cpp:14-15 | definition: the VTK flag off and the file name empty, no messages, not failed; `VtkFlagFollowsFileName` and `ParseKeepsUnmentioned` build on it |
| ConfigParser.Classify | ConfigParser.cpp:21-63 | definition: trim; blank or `#` lines are skipped, lines with an empty key are malformed, other keys are looked up in `FieldOf`; `ParseOneLine` and `AliasLineIsUnknown` use it |
| ConfigParser.Step | ConfigParser.cpp:24-69 | definition: the effect of one classified line on the parameters, the messages and the failure flag; characterised by `StepEffect` |
| ConfigParser.Run | ConfigParser.cpp:20-70 | definition: `Step` over the classified lines in order, numbering from the first; characterised by the `Run` lemmas below |
| ConfigParser.ParseFrom | ConfigParser.cpp:20-70 | definition: `Run` over the lines read; characterised by the `Parse` lemmas below and computed by `ParseConfigFile` |
| ConfigParser.StepEffect | ConfigParser.cpp:21-69 | one line: skipped, invalid and unknown lines keep the parameters; a setting line fails exactly when its conversion throws, and otherwise assigns the setting; at most one message is appended |
| ConfigParser.RunAppend | ConfigParser.cpp:20-70 | reading `a + b` is reading `a`, then `b` from the line number after it |
| ConfigParser.RunFailed | ConfigParser.cpp:65-69 | once a conversion has failed, no later line has any effect |
| ConfigParser.RunStopsAt | ConfigParser.cpp:65-69 | the result is that of the prefix up to the failing line |
| ConfigParser.RunFailsIff | ConfigParser.cpp:34-69 | reading fails exactly when some setting line's conversion throws |
| ConfigParser.RunKeepsUnassigned | ConfigParser.cpp:35-64 | a setting no line assigns keeps its value |
| ConfigParser.RunLastAssignmentWins | ConfigParser.cpp:35-64 | after a successful read, a setting holds the value of the last line that assigns it |
| ConfigParser.RunKeepsVtkFlag | ConfigParser.cpp:59-61 | the VTK flag stays equal to "the file name is non-empty" |
| ConfigParser.ParseFailsIff | ConfigParser.cpp:20-72 | `parseConfigFile` on an opened file returns false exactly when some line's value fails to convert |
| ConfigParser.ParseAppendsDiagnostics | ConfigParser.cpp:20-70 | messages are only appended, at most one per line |
| ConfigParser.ParseKeepsUnmentioned | ConfigParser.cpp:35-64 | a setting no line mentions keeps the value it had when reading starts; for the VTK output that is the reset of `Start` (flag off, empty name), not the caller's value |
| ConfigParser.LastAssignmentWins | ConfigParser.cpp:35-64 | a setting holds the converted value of the last line that sets it |
| ConfigParser.VtkFlagFollowsFileName | ConfigParser.cpp:14-15 | after parsing, VTK output is on exactly when the output file name is non-empty |
| ConfigParser.AliasesNeverMatch | ConfigParser.cpp:35-58 | a parsed key is never one of the upper-case aliases `L`, `N`, `M`, `T`, because it was lowercased |
| ConfigParser.AliasLineIsUnknown | ConfigParser.cpp:35-63 | a line whose key is `l`, `n`, `m` or `t` is reported as an unknown parameter |
| ConfigParser.ParseOneLine | ConfigParser.cpp:21-69 | the loop body: trim, skip a blank or comment line, split, then dispatch on the key, as one `Step` |
| ConfigParser.ParseConfigFile | ConfigParser.cpp:7-73 | an unopened file gives false and one message; otherwise VTK output is reset and the lines are read in order; the result is true exactly when no conversion failed |
| VtkWriter.Decimal | VTKWriter.cpp:57 | definition: `<<` of an int, a minus sign before the digits of a negative value; characterised by `DigitsRoundTrip` and `NegativeTimeStepName` |
| VtkWriter.Pad4 | VTKWriter.cpp:57 | definition: `setfill('0') << setw(4)`, zeros on the left up to width 4 and no truncation; characterised by `Pad4Keeps`, `PaddedValue` and `WideTimeStepUnpadded` |
| VtkWriter.DigitsRoundTrip | VTKWriter.cpp:57 | the decimal text of `n` is all digits with no leading zero, and reads back as `n` |
| VtkWriter.Pad4Keeps | VTKWriter.cpp:57 | `setw(4)` with `setfill('0')` pads on the left with zeros to four characters and never truncates |
| VtkWriter.PaddedValue | VTKWriter.cpp:57 | the padded time step still reads back as the time step |
| VtkWriter.SnapshotFileName | VTKWriter.cpp:57 | definition: the base name, `_t`, the time step zero-padded to width 4, `.vtp`; characterised by the two lemmas below |
| VtkWriter.SnapshotFileNameDecodes | VTKWriter.cpp:57 | a snapshot name is the base name, `_t`, text denoting the time step, then `.vtp` |
| VtkWriter.SnapshotFileNamesDistinct | VTKWriter.cpp:57 | different time steps give different file names, so no snapshot overwrites another |
| VtkWriter.WideTimeStepUnpadded | VTKWriter.cpp:57 | from time step 1000 on, the number is written unpadded |
| VtkWriter.NegativeTimeStepName | VTKWriter.cpp:57 | a negative time step is padded after the fill rule, as in `run_t00-1.vtp` |
| VtkWriter.TriplesAt | VTKWriter.cpp:40-44 | tuple `i` of a 3-component array holds x, y and z of vector `i` |
| VtkWriter.Snapshot | VTKWriter.cpp:22-47 | definition: the named file with the positions, one vertex per point and the `Velocity`, `Acceleration` and `Friction` arrays; characterised by `SnapshotContents`, and built by `WritePoints` |
| VtkWriter.SnapshotContents | VTKWriter.cpp:22-47 | every array holds one tuple per point in point order; `Velocity` and `Acceleration` have 3 components and `Friction` has 1; vertex cell `i` references point id `i` |
| VtkWriter.WritePoints | VTKWriter.cpp:15-65 | the loop over the points builds exactly the snapshot file `Snapshot` describes |
| VtkWriter.Snapshots | VTKWriter.cpp:68-70 | definition: the snapshot of history entry `t` at time step `t`, one per entry; characterised by `SnapshotsStep` and written by `WriteSnapshots` |
| VtkWriter.SnapshotsStep | VTKWriter.cpp:68-70 | one more history entry adds one more file, written at the next time step |
| VtkWriter.DataSetLine | VTKWriter.cpp:83 | definition: the `DataSet` line naming a time step and its file |
| VtkWriter.Entries | VTKWriter.cpp:80-84 | definition: one `DataSet` line per time step 0..n-1, naming that step's snapshot file; characterised by `CollectionShape` |
| VtkWriter.Collection | VTKWriter.cpp:73-87 | definition: `base.pvd` with the header, one entry per snapshot and the footer; characterised by `CollectionShape` and `CollectionNamesWrittenFiles` |
| VtkWriter.CollectionShape | VTKWriter.cpp:73-87 | the collection file is named `base.pvd` and holds three header lines, one `DataSet` line per snapshot for time steps 0..n-1 in order, then two footer lines |
| VtkWriter.CollectionNamesWrittenFiles | VTKWriter.cpp:67-91 | entry `t` of the collection names the file written for history entry `t`, and no two entries name the same file |
| VtkWriter.WriteTimeSeriesPoints | VTKWriter.cpp:67-91 | writes entry `t` of the history at time step `t`, in order, then the collection of the same length |
| VtkWriter.WriteSnapshots | VTKWriter.cpp:68-70 | the first loop writes one snapshot per history entry |
| VtkWriter.WriteCollection | VTKWriter.cpp:75-87 | the header, entry and footer writes produce the collection file |
| Simulation.VectorAt | Simulator.cpp:100-106 | definition: draws `k`, `k + 1`, `k + 2` for x, y, z; characterised by `VectorInBox` |
| Simulation.MinMagnitudeAt | Simulator.cpp:41 | definition: a uniform draw over the acceleration range; bounded by `ForceMagnitudesInRange` |
| Simulation.MaxMagnitudeAt | Simulator.cpp:42 | definition: the minimum plus a draw over what is left up to `maxAcceleration`; bounded by `ForceMagnitudesInRange` |
| Simulation.ForceAt | Simulator.cpp:40-44 | definition: a direction drawn and normalised, handed with the drawn magnitudes to the `Force` constructor, which normalises it again; characterised by `ForceDirectionNormalizedOnce`, `ForceDirectionIsUnit` and `ForceMagnitudesInRange` |
| Simulation.ForceDirectionNormalizedOnce | Simulator.cpp:40-44 | the direction normalised at line 40 and again by the constructor it is handed to is the drawn vector normalised once |
| Simulation.ForcesFrom | Simulator.cpp:35-46 | definition: the forces built on consecutive blocks of five draws; characterised by `ForcesFromStep` and `ForcesInRange`, and computed by `InitializeForces` |
| Simulation.Generated | Simulator.cpp:26-29 | definition: `generateForce` of each force in order, on consecutive draws; characterised by `GeneratedAreDraws` |
| Simulation.ForcesFromStep | Simulator.cpp:39-45 | each loop pass appends the force built from the next five draws |
| Simulation.PointsFromStep | Simulator.cpp:15-32 | each loop pass appends the point built from the next `7 + forces` draws |
| Simulation.PointAt | Simulator.cpp:16-29 | definition: position, initial velocity and friction drawn in that order, velocity equal to the initial velocity, acceleration accumulated from one generated force per force; characterised by `PointAtInRange` and computed by `NewPoint` |
| Simulation.ForceMagnitudesInRange | Simulator.cpp:41-42 | with canonical draws and `minAcceleration <= maxAcceleration`, `minAcceleration <= minMag <= maxMag <= maxAcceleration` |
| Simulation.ForceDirectionIsUnit | Simulator.cpp:40-44 | a force's direction is a unit vector or zero, and its magnitudes are the drawn ones |
| Simulation.ForcesInRange | Simulator.cpp:35-46 | every force of `initializeForces` has ordered magnitudes within the acceleration range and a unit or zero direction |
| Simulation.GeneratedAreDraws | Simulator.cpp:26-29 | each generated force is a draw of its force: the direction scaled by a magnitude in that force's range |
| Simulation.VectorInBox | Simulator.cpp:100-106 | `randomVector3D(lo, hi)` lies in the box `[lo, hi]³` |
| Simulation.PointAtInRange | Simulator.cpp:16-29 | a new point lies in the cube; its velocity equals its initial velocity, which lies in the initial-velocity box; its friction lies in the friction range; its acceleration is the sum of one generated force per force |
| Simulation.PointsFrom | Simulator.cpp:11-33 | definition: the points built on consecutive blocks of seven draws plus one per force; characterised by `PointsFromStep` and `PointsInRange`, and computed by `InitializePoints` |
| Simulation.PointsInRange | Simulator.cpp:11-33 | every point of `initializePoints` satisfies the bounds of `PointAtInRange` |
| Simulation.StepAll | Simulator.cpp:64-66 | a micro-step keeps the number of points |
| Simulation.MicroSteps | Simulator.cpp:63-67 | `k` micro-steps keep the number of points; composed by `MicroStepsAdd` |
| Simulation.Tick | Simulator.cpp:56-67 | one tick (100 micro-steps of `dt = 0.01`) keeps the number of points; computed by `RunTick` |
| Simulation.Ticks | Simulator.cpp:59-67 | `n` ticks keep the number of points; `TicksAreMicroSteps` gives them as `100 n` micro-steps |
| Simulation.History | Simulator.cpp:69-71 | the history of `n` ticks holds `n` snapshots; characterised by `HistoryStep` and `HistoryContinues` |
| Simulation.TickCount | Simulator.cpp:59 | definition: `simulationTime + 1` passes of the loop, none for a negative time; used by `Simulate` and `LaunchedIsValid` |
| Simulation.HistoryStep | Simulator.cpp:69-71 | one more tick appends the state after that tick to the history |
| Simulation.MicroStepsAdd | Simulator.cpp:63-67 | `a` micro-steps followed by `b` micro-steps are `a + b` micro-steps |
| Simulation.TicksAreMicroSteps | Simulator.cpp:56-67 | `n` ticks are exactly `100 n` micro-steps, each updating every point once |
| Simulation.HistoryContinues | Simulator.cpp:59-71 | each snapshot of the history is one tick after the previous one |
| Simulation.FixedPointsStay | Simulator.cpp:59-67 | a point that `update` leaves in place stays in place through any number of ticks |
| Simulation.MicroStepsKeep | Simulator.cpp:63-67 | such a point also stays in place through any number of micro-steps |
| Simulation.Engine.constructor | Simulator.cpp:6 | the engine starts at draw 0 of its tape |
| Simulation.Engine.Next | Simulator.cpp:95-98 | one sample is the next entry of the tape, and the counter advances by one |
| Simulation.Simulator.constructor | Simulator.cpp:6-9 | the forces come first, from draw 0; the points follow, seeded from those forces; the history is empty |
| Simulation.Simulator.RandomDouble | Simulator.cpp:95-98 | `randomDouble` is the uniform draw on the next sample and consumes one sample |
| Simulation.Simulator.RandomVector3D | Simulator.cpp:100-106 | `randomVector3D` consumes three samples, for x, y and z |
| Simulation.Simulator.InitializeForces | Simulator.cpp:35-46 | replaces the forces with `numForces` forces from consecutive draws, five each; nothing else changes |
| Simulation.Simulator.NewForce | Simulator.cpp:40-44 | one force is a normalised random direction, then a minimum magnitude, then the remaining range |
| Simulation.Simulator.InitializePoints | Simulator.cpp:11-33 | replaces the points with `numPoints` points from consecutive draws, `7 + forces` each; the forces are kept |
| Simulation.Simulator.NewPoint | Simulator.cpp:16-31 | one point is built from its seven draws, then receives one generated force per force |
| Simulation.Simulator.ApplyForces | Simulator.cpp:26-29 | the inner loop adds one generated force per force, in force order, each on the next sample; it changes nothing else about the point |
| Simulation.Simulator.Simulate | Simulator.cpp:48-85 | after `T + 1` ticks the points are `Ticks(initial, T + 1)`; with VTK output the history is exactly the state after each tick; with a file name, every snapshot is written once per tick and again at the end, with a collection of `T + 1` entries; without one, nothing is written |
| Simulation.Simulator.TickAndRecord | Simulator.cpp:59-80 | one tick, then the copy into the history when VTK output is on, then the snapshot for time step `t` when a file name is set |
| Simulation.Simulator.RunTick | Simulator.cpp:63-67 | 100 micro-steps |
| Simulation.Simulator.UpdateAll | Simulator.cpp:64-66 | every point is updated once, in index order, and nothing else changes |
| Cli.AcceptedArgc | main.cpp:29 | definition: `argc` is 2, 13 or 14; characterised by `ArgcRejected` |
| Cli.Column | main.cpp:53-64 | definition: the setting `argv[i]` is stored in; characterised by `ColumnsDistinct` and `PositionalMapping` |
| Cli.FromConfig | main.cpp:41-45 | definition: the parameters `parseConfigFile` leaves when it returns true; characterised by `ConfigModeRule` |
| Cli.ReadParams | main.cpp:29-68 | definition: argc check, then configuration-file or positional mode; computed by `ReadArguments` |
| Cli.ValuesPositive | main.cpp:70 | definition: the first gate passes; `Validate` and `ValidateAccepts` relate it to the gate |
| Cli.RangesOrdered | main.cpp:75-78 | definition: the second gate passes; `Validate` and `ValidateAccepts` relate it to the gate |
| Cli.Validate | main.cpp:70-81 | the gates pass (no rejection) exactly when the parameters are positive, with T allowed to be 0, and every minimum is at most its maximum |
| Cli.ValidateAccepts | main.cpp:70-81 | the gates accept exactly the parameters that are positive and ordered; T may be 0 and equal bounds are allowed; the ordering gate rejects only parameters that passed the first gate |
| Cli.ArgcRejected | main.cpp:29-33 | argument counts other than 2, 13 and 14 launch nothing |
| Cli.ConfigModeRule | main.cpp:39-50 | a single argument that is not a configuration file name, or a file that cannot be opened, launches nothing; otherwise the launched parameters are what the file parses to, when it parses and passes the gates |
| Cli.Positional | main.cpp:53-67 | definition: `argv[1..12]` converted in order, the VTK flag set exactly for 14 arguments and the file name taken from `argv[13]`; characterised by the three lemmas below and `VtkFlagRule` |
| Cli.PositionalDefined | main.cpp:53-64 | the positional arguments are read exactly when each of `argv[1..12]` converts by its setting's conversion (`stoi` for N, M and T, `stod` otherwise) |
| Cli.PositionalMapping | main.cpp:53-64 | `argv[i]` lands in the setting at position `i` of the usage text |
| Cli.PositionalColumn | main.cpp:53-64 | the same, one argument at a time |
| Cli.ColumnsDistinct | main.cpp:53-64 | the twelve positions name twelve different settings, none of them the VTK output |
| Cli.VtkFlagRule | main.cpp:66-67 | VTK output is on exactly with a thirteenth value, which is then the file name; otherwise the file name is empty |
| Cli.ConversionFailureRejects | main.cpp:53-64 | a failing conversion of any positional argument launches nothing |
| Cli.Launch | main.cpp:28-108 | definition: the parameters read, when they pass both gates; characterised by `LaunchedIsValid`, and `RunMain` returns 0 exactly when it is defined |
| Cli.LaunchedIsValid | main.cpp:70-98 | launched parameters are positive and ordered, which is what the Simulator needs, and give `T + 1` ticks |
| Cli.ReadPositional | main.cpp:53-67 | the straight-line conversions, stopping at the first one that throws, compute `Positional` |
| Cli.ReadArguments | main.cpp:29-68 | the argument handling up to the gates computes `ReadParams` |
| Cli.RunHistory | main.cpp:98-99 | definition: the point states a simulator built from the parameters records over its `T + 1` ticks; stated by `Run` and `RunMain` |
| Cli.Run | main.cpp:98-99 | with a file name set, the run writes the snapshots of the `T + 1` point states it records twice over (tick by tick, then all at the end), those states being the points drawn after the forces and advanced tick by tick, plus a collection of `T + 1` entries; without one it writes nothing |
| Cli.RunMain | main.cpp:28-108 | `main` returns 0 exactly when the parameters are read and pass both gates, and then writes what `Run` writes for them: the snapshots of the recorded history twice over and the collection; otherwise it returns 1 and writes nothing |

## Left out

- Text is a sequence of Dafny `char` values, not bytes. `std::isspace` and `::tolower` act on bytes; `IsSpace` and `ToLower` give the C-locale answers (the six ASCII white-space characters, `A`-`Z` lowered) and leave every other character alone, so other locales and multi-byte encodings are not modelled.
- Output to the console and to stderr is not modelled. This covers `printUsage`, the warnings and errors of `parseConfigFile` and `main`, `printPointPositions` and the progress lines of `simulate`. `ParseConfigFile` returns its messages as `Diagnostic` values instead.
- The VTK library calls and the file writes are not modelled. The model returns the arrays and lines that would be written, as `VtpFile` and `Manifest` values. Failures of the VTK writer or of `std::ofstream` are not modelled.
- The numbers `setprecision(3)` would print are left out, since they only affect console output.
- Floating point is modelled as real arithmetic. Rounding, overflow, NaN and infinity are left out. `std::sqrt` is any exact square root.
- The grammar of `std::stod` and `std::stoi` is left out; they are the `Conversions` parameter. This includes partial parses such as `"12abc"`, and `stoi`'s 32-bit range.
- `int` arithmetic is modelled as unbounded. Overflow of `simulationTime + 1` or of the loop counters at `INT_MAX` is not modelled.
- `std::random_device` and the Mersenne Twister algorithm are left out. The engine is a tape of samples chosen by the caller. `uniform_real_distribution` is taken as exactly `a + (b - a) * u`.
- C++ leaves the evaluation order of the three `randomDouble` calls in `Vector3D(randomDouble(..), randomDouble(..), randomDouble(..))` unspecified. The model takes them as x, y, z.
- `Point::update`, `setVelocityLimits` and `setAccelerationLimits` are called in Simulator.cpp but defined in no file of this model. `update` is a parameter of `Simulate`. The two limit setters are omitted, and no clamping is modelled.
- Simulation.Simulator.constructor: requires `numForces >= 0` and `numPoints >= 0`. With negative counts, `reserve` throws `std::length_error`, and that path is not modelled. `main` never reaches it, since it rejects non-positive counts first (`Cli.LaunchedIsValid`).
- Simulation.Simulator.Simulate: requires `simulationTime >= -1` when VTK output is on, for the same reason (`reserve(simulationTime + 1)`).
- `std::bad_alloc` and other allocation failures are not modelled.
- In configuration-file mode, the fields of `SimulationParams` that no line sets hold indeterminate values in C++. The model takes them from the `garbage` parameter of `Cli.RunMain`.
- `Force()`, the default constructor, is `Forces.DefaultForce`. Nothing in the modelled code calls it.
- The GUI (`SimulationGUI.cpp`, `SimulationGUI.h`) is not part of this model.
