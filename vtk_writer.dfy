/**
 * VTKWriter.cpp: one .vtp snapshot per time step and a ParaView .pvd
 * collection naming the snapshots.  The VTK library objects are modelled by
 * the data they receive: the point coordinates, one vertex cell per point and
 * three named attribute arrays.  The manifest is modelled as its lines, each
 * written to the file followed by a newline.
 */
module VtkWriter {
  import opened Vectors
  import opened Points

  // Decimal text, as `<<` writes an integer.

  function DigitChar(d: nat): char
    requires d < 10
  {
    "0123456789"[d]
  }

  predicate IsDigit(c: char) {
    '0' <= c <= '9'
  }

  function DigitValue(c: char): nat {
    if IsDigit(c) then (c as int - '0' as int) else 0
  }

  /** The digits of n, most significant first, without leading zeros. */
  function Digits(n: nat): (r: string)
    ensures |r| >= 1
    decreases n
  {
    if n < 10 then [DigitChar(n)] else Digits(n / 10) + [DigitChar(n % 10)]
  }

  /** The number a string of digits denotes. */
  function Value(s: string): nat
    decreases |s|
  {
    if |s| == 0 then 0 else 10 * Value(s[..|s| - 1]) + DigitValue(s[|s| - 1])
  }

  /** Digits(n) consists of digits, starts with a non-zero digit unless n is
      0, and denotes n. */
  lemma {:induction false} DigitsRoundTrip(n: nat)
    ensures forall i :: 0 <= i < |Digits(n)| ==> IsDigit(Digits(n)[i])
    ensures n > 0 ==> Digits(n)[0] != '0'
    ensures Value(Digits(n)) == n
    decreases n
  {
    if n < 10 {
      assert Value([DigitChar(n)]) == 10 * Value([]) + DigitValue(DigitChar(n));
    } else {
      var d := Digits(n / 10);
      DigitsRoundTrip(n / 10);
      assert (d + [DigitChar(n % 10)])[..|d|] == d;
    }
  }

  /** `<<` of an int: a minus sign before the digits of a negative value. */
  function Decimal(t: int): string {
    if t < 0 then "-" + Digits(-t) else Digits(t)
  }

  function Zeros(k: nat): (r: string)
    ensures |r| == k
  {
    seq(k, i => '0')
  }

  /** std::setfill('0') << std::setw(4): zeros are inserted on the left up
      to width 4 (the default right adjustment puts them before a minus
      sign too); a longer text is written whole. */
  function Pad4(s: string): string {
    if |s| >= 4 then s else Zeros(4 - |s|) + s
  }

  /** Padding never truncates: the text is a suffix of the result, what
      precedes it is zeros, and the result has at least 4 characters. */
  lemma Pad4Keeps(s: string)
    ensures |Pad4(s)| == if |s| >= 4 then |s| else 4
    ensures Pad4(s)[|Pad4(s)| - |s|..] == s
    ensures forall i :: 0 <= i < |Pad4(s)| - |s| ==> Pad4(s)[i] == '0'
  {
  }

  lemma {:induction false} ValueOfZeros(k: nat)
    ensures Value(Zeros(k)) == 0
    decreases k
  {
    if k > 0 {
      assert Zeros(k)[..k - 1] == Zeros(k - 1);
      ValueOfZeros(k - 1);
    }
  }

  /** Leading zeros do not change the value of a digit string. */
  lemma {:induction false} LeadingZerosIgnored(k: nat, s: string)
    ensures Value(Zeros(k) + s) == Value(s)
    decreases |s|
  {
    if |s| == 0 {
      assert Zeros(k) + s == Zeros(k);
      ValueOfZeros(k);
    } else {
      var s' := s[..|s| - 1];
      LeadingZerosIgnored(k, s');
      assert (Zeros(k) + s)[..|Zeros(k) + s| - 1] == Zeros(k) + s';
    }
  }

  /** The padded time step still denotes the time step. */
  lemma PaddedValue(t: nat)
    ensures Value(Pad4(Decimal(t))) == t
  {
    DigitsRoundTrip(t);
    if |Digits(t)| < 4 {
      LeadingZerosIgnored(4 - |Digits(t)|, Digits(t));
    }
  }

  /** The snapshot file name: filename, "_t", the time step zero-padded to
      width 4, ".vtp". */
  function SnapshotFileName(filename: string, timeStep: int): string {
    filename + "_t" + Pad4(Decimal(timeStep)) + ".vtp"
  }

  /** A snapshot name starts with the base name and "_t", ends in ".vtp",
      and the text between denotes the time step. */
  lemma SnapshotFileNameDecodes(filename: string, timeStep: nat)
    ensures var name := SnapshotFileName(filename, timeStep);
      |name| >= |filename| + 10 &&
      name[..|filename| + 2] == filename + "_t" &&
      name[|name| - 4..] == ".vtp" &&
      Value(name[|filename| + 2..|name| - 4]) == timeStep
  {
    var name := SnapshotFileName(filename, timeStep);
    var padded := Pad4(Decimal(timeStep));
    Pad4Keeps(Decimal(timeStep));
    PaddedValue(timeStep);
    assert name == (filename + "_t") + padded + ".vtp";
    assert name[|filename| + 2..|name| - 4] == padded;
  }

  /** Different time steps of the same run get different file names, so no
      snapshot overwrites another. */
  lemma SnapshotFileNamesDistinct(filename: string, t1: nat, t2: nat)
    requires t1 != t2
    ensures SnapshotFileName(filename, t1) != SnapshotFileName(filename, t2)
  {
    SnapshotFileNameDecodes(filename, t1);
    SnapshotFileNameDecodes(filename, t2);
  }

  /** Four digits and more are written unpadded. */
  lemma WideTimeStepUnpadded(filename: string, timeStep: nat)
    requires timeStep >= 1000
    ensures SnapshotFileName(filename, timeStep) == filename + "_t" + Digits(timeStep) + ".vtp"
  {
    assert |Digits(timeStep)| >= 4 by {
      assert |Digits(timeStep / 10)| >= 3 by {
        assert |Digits(timeStep / 100)| >= 2;
      }
    }
  }

  /** A negative time step keeps its sign after the inserted zeros. */
  lemma NegativeTimeStepName()
    ensures SnapshotFileName("run", -1) == "run_t00-1.vtp"
  {
    assert Digits(1) == "1";
    assert Decimal(-1) == "-1";
    assert Zeros(2) == "00";
  }

  // The snapshot contents.

  /** A vtkDoubleArray: its name, the number of components per tuple and
      the values of all tuples, one after another. */
  datatype DataArray = DataArray(name: string, numberOfComponents: nat, values: seq<real>)

  /** What the XML writer receives for one time step. */
  datatype VtpFile = VtpFile(
    fileName: string,
    coordinates: seq<Vector3D>,
    vertices: seq<nat>,
    velocity: DataArray,
    acceleration: DataArray,
    friction: DataArray)

  /** The components of each vector, three values per vector in order. */
  function Triples(vs: seq<Vector3D>): (r: seq<real>)
    ensures |r| == 3 * |vs|
    decreases |vs|
  {
    if |vs| == 0 then [] else
      var v := vs[|vs| - 1];
      Triples(vs[..|vs| - 1]) + [v.x, v.y, v.z]
  }

  /** Tuple i of the flattened values is vector i. */
  lemma {:induction false} TriplesAt(vs: seq<Vector3D>, i: nat)
    requires i < |vs|
    ensures Triples(vs)[3 * i] == vs[i].x
    ensures Triples(vs)[3 * i + 1] == vs[i].y
    ensures Triples(vs)[3 * i + 2] == vs[i].z
    decreases |vs|
  {
    if i < |vs| - 1 {
      TriplesAt(vs[..|vs| - 1], i);
    }
  }

  function Positions(points: seq<PointState>): seq<Vector3D> {
    seq(|points|, i requires 0 <= i < |points| => points[i].position)
  }

  function Velocities(points: seq<PointState>): seq<Vector3D> {
    seq(|points|, i requires 0 <= i < |points| => points[i].velocity)
  }

  function Accelerations(points: seq<PointState>): seq<Vector3D> {
    seq(|points|, i requires 0 <= i < |points| => points[i].acceleration)
  }

  function Frictions(points: seq<PointState>): seq<real> {
    seq(|points|, i requires 0 <= i < |points| => points[i].frictionCoefficient)
  }

  function Ids(n: nat): seq<nat> {
    seq(n, i requires 0 <= i < n => i as nat)
  }

  /** The snapshot writePoints produces for `points` at `timeStep`. */
  function Snapshot(points: seq<PointState>, filename: string, timeStep: int): VtpFile {
    VtpFile(
      SnapshotFileName(filename, timeStep),
      Positions(points),
      Ids(|points|),
      DataArray("Velocity", 3, Triples(Velocities(points))),
      DataArray("Acceleration", 3, Triples(Accelerations(points))),
      DataArray("Friction", 1, Frictions(points)))
  }

  /** Every array holds one tuple per point, in point order: tuple i of
      Velocity and Acceleration is that vector of point i, value i of
      Friction its friction coefficient, and vertex cell i references point
      id i. */
  lemma SnapshotContents(points: seq<PointState>, filename: string, timeStep: int, i: nat)
    requires i < |points|
    ensures var f := Snapshot(points, filename, timeStep);
      |f.coordinates| == |f.vertices| == |points| &&
      |f.velocity.values| == f.velocity.numberOfComponents * |points| &&
      |f.acceleration.values| == f.acceleration.numberOfComponents * |points| &&
      |f.friction.values| == f.friction.numberOfComponents * |points| &&
      f.coordinates[i] == points[i].position &&
      f.vertices[i] == i &&
      f.velocity.values[3 * i..3 * i + 3] == [points[i].velocity.x, points[i].velocity.y, points[i].velocity.z] &&
      f.acceleration.values[3 * i..3 * i + 3]
        == [points[i].acceleration.x, points[i].acceleration.y, points[i].acceleration.z] &&
      f.friction.values[i] == points[i].frictionCoefficient
  {
    TriplesAt(Velocities(points), i);
    TriplesAt(Accelerations(points), i);
  }

  /** writePoints: the loop inserts one coordinate, one vertex and one tuple
      per array for each point. */
  method WritePoints(points: seq<PointState>, filename: string, timeStep: int) returns (file: VtpFile)
    ensures file == Snapshot(points, filename, timeStep)
  {
    var coordinates: seq<Vector3D> := [];
    var vertices: seq<nat> := [];
    var velocity: seq<real> := [];
    var acceleration: seq<real> := [];
    var friction: seq<real> := [];
    var i := 0;
    while i < |points|
      invariant 0 <= i <= |points|
      invariant coordinates == Positions(points[..i])
      invariant vertices == Ids(i)
      invariant velocity == Triples(Velocities(points[..i]))
      invariant acceleration == Triples(Accelerations(points[..i]))
      invariant friction == Frictions(points[..i])
    {
      var point := points[i];
      coordinates := coordinates + [point.position];
      vertices := vertices + [i];
      velocity := velocity + [point.velocity.x, point.velocity.y, point.velocity.z];
      acceleration := acceleration + [point.acceleration.x, point.acceleration.y, point.acceleration.z];
      friction := friction + [point.frictionCoefficient];
      assert Velocities(points[..i + 1]) == Velocities(points[..i]) + [point.velocity];
      assert Accelerations(points[..i + 1]) == Accelerations(points[..i]) + [point.acceleration];
      i := i + 1;
    }
    assert points[..i] == points;
    var name := filename + "_t" + Pad4(Decimal(timeStep)) + ".vtp";
    file := VtpFile(name, coordinates, vertices,
      DataArray("Velocity", 3, velocity),
      DataArray("Acceleration", 3, acceleration),
      DataArray("Friction", 1, friction));
  }

  // The collection file.

  datatype Manifest = Manifest(fileName: string, lines: seq<string>)

  function Header(): seq<string> {
    ["<?xml version=\"1.0\"?>", "<VTKFile type=\"Collection\" version=\"0.1\">", "  <Collection>"]
  }

  function Footer(): seq<string> {
    ["  </Collection>", "</VTKFile>"]
  }

  /** The line naming the snapshot of time step t. */
  function DataSetLine(t: nat, file: string): string {
    "    <DataSet timestep=\"" + Digits(t) + "\" file=\"" + file + "\"/>"
  }

  function Entries(baseFilename: string, n: nat): seq<string> {
    seq(n, t requires 0 <= t < n => DataSetLine(t, SnapshotFileName(baseFilename, t)))
  }

  /** The .pvd file for a history of n snapshots. */
  function Collection(baseFilename: string, n: nat): Manifest {
    Manifest(baseFilename + ".pvd", Header() + Entries(baseFilename, n) + Footer())
  }

  /** The snapshots writeTimeSeriesPoints writes: entry t at time step t. */
  function Snapshots(history: seq<seq<PointState>>, baseFilename: string): (r: seq<VtpFile>)
    ensures |r| == |history|
  {
    seq(|history|, t requires 0 <= t < |history| => Snapshot(history[t], baseFilename, t))
  }

  lemma SnapshotsStep(history: seq<seq<PointState>>, points: seq<PointState>, baseFilename: string)
    ensures Snapshots(history + [points], baseFilename)
      == Snapshots(history, baseFilename) + [Snapshot(points, baseFilename, |history|)]
  {
  }

  /** The manifest is named after the base name with ".pvd" appended and
      has the three header lines, one DataSet line per snapshot with the
      time steps 0..n-1 in order, and the two footer lines. */
  lemma CollectionShape(baseFilename: string, n: nat)
    ensures Collection(baseFilename, n).fileName == baseFilename + ".pvd"
    ensures var lines := Collection(baseFilename, n).lines;
      |lines| == n + 5 &&
      lines[..3] == Header() &&
      lines[n + 3..] == Footer() &&
      forall t :: 0 <= t < n ==> lines[3 + t] == DataSetLine(t, SnapshotFileName(baseFilename, t))
  {
    var lines := Collection(baseFilename, n).lines;
    assert lines == Header() + Entries(baseFilename, n) + Footer();
    assert lines[..3] == Header();
    assert lines[n + 3..] == Footer();
  }

  /** Every manifest entry names the file written for the same index, and
      no two entries name the same file. */
  lemma CollectionNamesWrittenFiles(history: seq<seq<PointState>>, baseFilename: string, t: nat, u: nat)
    requires t < |history| && u < |history| && t != u
    ensures Collection(baseFilename, |history|).lines[3 + t]
      == DataSetLine(t, Snapshots(history, baseFilename)[t].fileName)
    ensures Snapshots(history, baseFilename)[t].fileName != Snapshots(history, baseFilename)[u].fileName
  {
    CollectionShape(baseFilename, |history|);
    SnapshotFileNamesDistinct(baseFilename, t, u);
  }

  /** writeTimeSeriesPoints: writes snapshot t of the history at time step
      t, in order, then the collection file. */
  method WriteTimeSeriesPoints(history: seq<seq<PointState>>, baseFilename: string)
    returns (files: seq<VtpFile>, manifest: Manifest)
    ensures files == Snapshots(history, baseFilename)
    ensures manifest == Collection(baseFilename, |history|)
  {
    files := WriteSnapshots(history, baseFilename);
    manifest := WriteCollection(|history|, baseFilename);
  }

  /** The first loop of writeTimeSeriesPoints: writePoints of each history
      entry with its index as the time step. */
  method WriteSnapshots(history: seq<seq<PointState>>, baseFilename: string) returns (files: seq<VtpFile>)
    ensures files == Snapshots(history, baseFilename)
  {
    files := [];
    var t := 0;
    while t < |history|
      invariant 0 <= t <= |history|
      invariant files == Snapshots(history[..t], baseFilename)
    {
      var file := WritePoints(history[t], baseFilename, t);
      SnapshotsStep(history[..t], history[t], baseFilename);
      assert history[..t + 1] == history[..t] + [history[t]];
      files := files + [file];
      t := t + 1;
    }
    assert history[..t] == history;
  }

  /** The .pvd text: the header, one DataSet line per snapshot, whose file
      name is formatted as in writePoints, and the footer. */
  method WriteCollection(n: nat, baseFilename: string) returns (manifest: Manifest)
    ensures manifest == Collection(baseFilename, n)
  {
    var lines := Header();
    var t := 0;
    while t < n
      invariant 0 <= t <= n
      invariant lines == Header() + Entries(baseFilename, t)
    {
      var filename := baseFilename + "_t" + Pad4(Decimal(t)) + ".vtp";
      lines := lines + [DataSetLine(t, filename)];
      assert Entries(baseFilename, t + 1) == Entries(baseFilename, t) + [DataSetLine(t, filename)];
      t := t + 1;
    }
    lines := lines + Footer();
    manifest := Manifest(baseFilename + ".pvd", lines);
  }
}
