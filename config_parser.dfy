/**
 * ConfigParser.cpp: reads `key = value` lines into SimulationParams.
 *
 * The file is given as the sequence of lines std::getline would return
 * (None when the file cannot be opened).  Console messages become a list of
 * diagnostics returned beside the parameters.
 */
module ConfigParser {
  import opened Wrappers
  import opened Params

  // ---------------------------------------------------------------------
  // Characters, in the "C" locale used by std::isspace and ::tolower.

  predicate IsSpace(c: char) {
    c == ' ' || c == '\t' || c == '\n' || c == '\U{000B}' || c == '\U{000C}' || c == '\r'
  }

  predicate IsUpper(c: char) {
    'A' <= c <= 'Z'
  }

  function ToLower(c: char): char {
    if IsUpper(c) then (c as int - 'A' as int + 'a' as int) as char else c
  }

  /** std::transform(..., ::tolower) over a whole string. */
  function Lowercase(s: string): string {
    if |s| == 0 then "" else [ToLower(s[0])] + Lowercase(s[1..])
  }

  /** Lowercasing maps each character on its own and keeps the length. */
  lemma {:induction false} LowercasePointwise(s: string)
    ensures |Lowercase(s)| == |s| && forall i :: 0 <= i < |s| ==> Lowercase(s)[i] == ToLower(s[i])
    decreases |s|
  {
    if |s| > 0 {
      LowercasePointwise(s[1..]);
    }
  }

  predicate NoUppercase(s: string) {
    forall i :: 0 <= i < |s| ==> !IsUpper(s[i])
  }

  lemma LowercaseShape(s: string)
    ensures |Lowercase(s)| == |s|
    ensures NoUppercase(Lowercase(s))
    ensures forall i :: 0 <= i < |s| ==> (IsSpace(Lowercase(s)[i]) <==> IsSpace(s[i]))
    ensures forall i :: 0 <= i < |s| ==> (Lowercase(s)[i] == '=' <==> s[i] == '=')
  {
    LowercasePointwise(s);
  }

  // ---------------------------------------------------------------------
  // trim

  /** s without its leading whitespace: the longest suffix of s that does not
      start with whitespace. */
  function TrimLeft(s: string): (r: string)
    ensures |r| <= |s|
    decreases |s|
  {
    if |s| > 0 && IsSpace(s[0]) then TrimLeft(s[1..]) else s
  }

  lemma {:induction false} TrimLeftSuffix(s: string)
    ensures |TrimLeft(s)| <= |s| && TrimLeft(s) == s[|s| - |TrimLeft(s)|..]
    ensures forall i :: 0 <= i < |s| - |TrimLeft(s)| ==> IsSpace(s[i])
    ensures |TrimLeft(s)| > 0 ==> !IsSpace(TrimLeft(s)[0])
    decreases |s|
  {
    if |s| > 0 && IsSpace(s[0]) {
      TrimLeftSuffix(s[1..]);
      assert s[1..][|s| - 1 - |TrimLeft(s)|..] == s[|s| - |TrimLeft(s)|..];
      forall i | 1 <= i < |s| - |TrimLeft(s)|
        ensures IsSpace(s[i])
      {
        assert s[i] == s[1..][i - 1];
      }
    }
  }

  /** s without its trailing whitespace: the longest prefix of s that does
      not end with whitespace. */
  function TrimRight(s: string): (r: string)
    ensures |r| <= |s|
    decreases |s|
  {
    if |s| > 0 && IsSpace(s[|s| - 1]) then TrimRight(s[..|s| - 1]) else s
  }

  lemma {:induction false} TrimRightPrefix(s: string)
    ensures |TrimRight(s)| <= |s| && TrimRight(s) == s[..|TrimRight(s)|]
    ensures forall i :: |TrimRight(s)| <= i < |s| ==> IsSpace(s[i])
    ensures |TrimRight(s)| > 0 ==> !IsSpace(TrimRight(s)[|TrimRight(s)| - 1])
    decreases |s|
  {
    if |s| > 0 && IsSpace(s[|s| - 1]) {
      TrimRightPrefix(s[..|s| - 1]);
      assert s[..|s| - 1][..|TrimRight(s)|] == s[..|TrimRight(s)|];
    }
  }

  /** The string trim leaves behind. */
  function Trimmed(s: string): string {
    TrimRight(TrimLeft(s))
  }

  /** A string is trimmed when it neither starts nor ends with whitespace. */
  predicate IsTrimmed(s: string) {
    |s| > 0 ==> !IsSpace(s[0]) && !IsSpace(s[|s| - 1])
  }

  /** trim removes only whitespace, only from the two ends, and leaves a
      string that neither starts nor ends with whitespace; the characters in
      between are those of the input, in place. */
  lemma TrimmedIsSlice(s: string)
    ensures IsTrimmed(Trimmed(s))
    ensures var i := |s| - |TrimLeft(s)|;
      i + |Trimmed(s)| <= |s| &&
      Trimmed(s) == s[i..i + |Trimmed(s)|] &&
      (forall k :: 0 <= k < i ==> IsSpace(s[k])) &&
      (forall k :: i + |Trimmed(s)| <= k < |s| ==> IsSpace(s[k]))
  {
    var l := TrimLeft(s);
    var r := Trimmed(s);
    var i := |s| - |l|;
    TrimLeftSuffix(s);
    TrimRightPrefix(l);
    assert r == l[..|r|];
    assert l == s[i..];
    assert r == s[i..i + |r|];
    forall k | i + |r| <= k < |s|
      ensures IsSpace(s[k])
    {
      assert s[k] == l[k - i];
    }
  }

  /** Neither half of trim changes a trimmed string. */
  lemma TrimmedFixpoint(s: string)
    requires IsTrimmed(s)
    ensures Trimmed(s) == s
  {
    assert TrimLeft(s) == s;
  }

  /** Trimming twice is trimming once. */
  lemma TrimIdempotent(s: string)
    ensures Trimmed(Trimmed(s)) == Trimmed(s)
  {
    TrimmedIsSlice(s);
    TrimmedFixpoint(Trimmed(s));
  }

  /** The std::find_if of trim's first erase: the position of the first
      character that is not whitespace, or |str|. */
  method FindFirstNonSpace(str: string) returns (start: nat)
    ensures start <= |str| && str[start..] == TrimLeft(str)
  {
    start := 0;
    while start < |str| && IsSpace(str[start])
      invariant 0 <= start <= |str|
      invariant TrimLeft(str[start..]) == TrimLeft(str)
    {
      TrimLeftStep(str, start);
      start := start + 1;
    }
  }

  /** The reverse std::find_if of trim's second erase: the position just after
      the last character that is not whitespace, or 0. */
  method FindEndOfNonSpace(str: string) returns (end: nat)
    ensures end <= |str| && str[..end] == TrimRight(str)
  {
    end := |str|;
    assert str[..|str|] == str;
    while end > 0 && IsSpace(str[end - 1])
      invariant 0 <= end <= |str|
      invariant TrimRight(str[..end]) == TrimRight(str)
    {
      TrimRightStep(str, end);
      end := end - 1;
    }
    assert str[..|str|] == str;
  }

  /** trim(str): erase the leading whitespace, then the trailing whitespace. */
  method Trim(str: string) returns (trimmed: string)
    ensures trimmed == Trimmed(str)
  {
    var start := FindFirstNonSpace(str);
    var erased := str[start..];
    var end := FindEndOfNonSpace(erased);
    trimmed := erased[..end];
  }

  lemma TrimLeftStep(s: string, start: nat)
    requires start < |s| && IsSpace(s[start])
    ensures TrimLeft(s[start..]) == TrimLeft(s[start + 1..])
  {
    assert s[start..][1..] == s[start + 1..];
  }

  lemma TrimRightStep(s: string, end: nat)
    requires 0 < end <= |s| && IsSpace(s[end - 1])
    ensures TrimRight(s[..end]) == TrimRight(s[..end - 1])
  {
    assert s[..end][..end - 1] == s[..end - 1];
  }

  // ---------------------------------------------------------------------
  // parseLine and isConfigFile

  /** std::string::find: the first position of c, if any. */
  function FindFirst(s: string, c: char): (r: Option<nat>)
    ensures r.Some? ==> r.value < |s|
  {
    if |s| == 0 then None
    else if s[0] == c then Some(0)
    else match FindFirst(s[1..], c)
      case None => None
      case Some(i) => Some(i + 1)
  }

  /** find reports no position exactly when c does not occur, and otherwise
      an occurrence of c with none before it. */
  lemma {:induction false} FindFirstFinds(s: string, c: char)
    ensures FindFirst(s, c).None? ==> c !in s
    ensures FindFirst(s, c).Some? ==>
      var i := FindFirst(s, c).value; i < |s| && s[i] == c && c !in s[..i]
    decreases |s|
  {
    if |s| > 0 && s[0] != c {
      FindFirstFinds(s[1..], c);
      match FindFirst(s[1..], c)
      case None =>
        assert s == [s[0]] + s[1..];
      case Some(i) =>
        assert s[..i + 1] == [s[0]] + s[1..][..i];
    }
  }

  /** std::string::find_last_of with one character: the last position of c,
      if any. */
  function FindLast(s: string, c: char): (r: Option<nat>)
    ensures r.Some? ==> r.value < |s|
  {
    if |s| == 0 then None
    else if s[|s| - 1] == c then Some(|s| - 1)
    else FindLast(s[..|s| - 1], c)
  }

  /** find_last_of reports no position exactly when c does not occur, and
      otherwise an occurrence of c with none after it. */
  lemma {:induction false} FindLastFinds(s: string, c: char)
    ensures FindLast(s, c).None? ==> c !in s
    ensures FindLast(s, c).Some? ==>
      var i := FindLast(s, c).value; i < |s| && s[i] == c && c !in s[i + 1..]
    decreases |s|
  {
    if |s| > 0 && s[|s| - 1] != c {
      FindLastFinds(s[..|s| - 1], c);
      match FindLast(s[..|s| - 1], c)
      case None =>
        assert s == s[..|s| - 1] + [s[|s| - 1]];
      case Some(i) =>
        assert s[i + 1..] == s[..|s| - 1][i + 1..] + [s[|s| - 1]];
    }
  }

  /** parseLine(line): split at the first '=', trim both sides and lowercase
      the key; ("", "") when there is no '='. */
  function ParseLine(line: string): (string, string) {
    match FindFirst(line, '=')
    case None => ("", "")
    case Some(i) => (Lowercase(Trimmed(line[..i])), Trimmed(line[i + 1..]))
  }

  /** find finds the occurrence before which the character does not occur. */
  lemma FindFirstAt(s: string, c: char, i: nat)
    requires i < |s| && s[i] == c && c !in s[..i]
    ensures FindFirst(s, c) == Some(i)
  {
    assert s[i] in s;
    FindFirstFinds(s, c);
    var r := FindFirst(s, c).value;
    if r < i {
      assert false;
    } else if r > i {
      assert false;
    }
  }

  /** A line without '=' yields an empty key and an empty value. */
  lemma ParseLineWithoutEquals(line: string)
    requires '=' !in line
    ensures ParseLine(line) == ("", "")
  {
    FindFirstFinds(line, '=');
  }

  /** The split is at the first '=': whatever follows it, further '='
      included, is the value. */
  lemma ParseLineSplit(k: string, v: string)
    requires '=' !in k
    ensures ParseLine(k + "=" + v) == (Lowercase(Trimmed(k)), Trimmed(v))
  {
    var line := k + "=" + v;
    assert line[|k|] == '=';
    assert line[..|k|] == k;
    assert line[|k| + 1..] == v;
    FindFirstAt(line, '=', |k|);
  }

  /** Trimming only removes characters. */
  lemma TrimmedKeepsAbsent(s: string, c: char)
    requires c !in s
    ensures c !in Trimmed(s)
  {
    TrimmedIsSlice(s);
  }

  /** Lowercasing a trimmed key without '=' keeps it trimmed and without '=',
      and leaves no uppercase letter. */
  lemma LowercaseKey(t: string)
    requires IsTrimmed(t) && '=' !in t
    ensures IsTrimmed(Lowercase(t)) && '=' !in Lowercase(t) && NoUppercase(Lowercase(t))
  {
    LowercaseShape(t);
  }

  /** The key holds no '=' and no uppercase letter, and neither key nor value
      starts or ends with whitespace. */
  lemma ParseLineShape(line: string)
    ensures '=' !in ParseLine(line).0
    ensures NoUppercase(ParseLine(line).0)
    ensures IsTrimmed(ParseLine(line).0) && IsTrimmed(ParseLine(line).1)
  {
    FindFirstFinds(line, '=');
    match FindFirst(line, '=')
    case None =>
    case Some(i) =>
      TrimmedIsSlice(line[..i]);
      TrimmedIsSlice(line[i + 1..]);
      TrimmedKeepsAbsent(line[..i], '=');
      LowercaseKey(Trimmed(line[..i]));
  }

  /** The extensions isConfigFile accepts, compared after lowercasing. */
  predicate IsConfigExtension(ext: string) {
    ext == "cfg" || ext == "config" || ext == "conf"
  }

  /** isConfigFile(filename): the text after the last '.', lowercased, is one
      of the accepted extensions. */
  function IsConfigFile(filename: string): bool {
    match FindLast(filename, '.')
    case None => false
    case Some(i) => IsConfigExtension(Lowercase(filename[i + 1..]))
  }

  /** A name without '.' is never a configuration file. */
  lemma IsConfigFileNeedsDot(filename: string)
    requires '.' !in filename
    ensures !IsConfigFile(filename)
  {
    FindLastFinds(filename, '.');
  }

  /** Only the text after the last '.' decides, case-insensitively. */
  lemma IsConfigFileByExtension(stem: string, ext: string)
    requires '.' !in ext
    ensures IsConfigFile(stem + "." + ext) <==> IsConfigExtension(Lowercase(ext))
  {
    var name := stem + "." + ext;
    assert name[|stem|] == '.';
    assert name[|stem| + 1..] == ext;
    FindLastAt(name, '.', |stem|);
  }

  /** find_last_of finds the occurrence after which the character does not
      occur again. */
  lemma FindLastAt(s: string, c: char, i: nat)
    requires i < |s| && s[i] == c && c !in s[i + 1..]
    ensures FindLast(s, c) == Some(i)
  {
    assert s[i] in s;
    FindLastFinds(s, c);
    var r := FindLast(s, c).value;
    if r < i {
      assert false;
    } else if r > i {
      assert false;
    }
  }

  /** "x.CFG" is accepted: the comparison ignores case. */
  lemma UppercaseExtensionAccepted()
    ensures IsConfigFile("x.CFG")
  {
    IsConfigFileByExtension("x", "CFG");
    assert "x" + "." + "CFG" == "x.CFG";
    LowercasePointwise("CFG");
    assert Lowercase("CFG") == "cfg";
  }

  /** "x.cfg.txt" is rejected: only the last extension counts. */
  lemma InnerExtensionIgnored()
    ensures !IsConfigFile("x.cfg.txt")
  {
    IsConfigFileByExtension("x.cfg", "txt");
    LowercasePointwise("txt");
    assert "x.cfg" + "." + "txt" == "x.cfg.txt";
  }

  /** "x." is rejected: its extension is empty. */
  lemma EmptyExtensionRejected()
    ensures !IsConfigFile("x.")
  {
    IsConfigFileByExtension("x", "");
    assert "x" + "." + "" == "x.";
  }

  // ---------------------------------------------------------------------
  // The key dispatch of parseConfigFile

  /** The setting a (lowercased) key names.  The one-letter aliases "L",
      "N", "M" and "T" are listed as in the source. */
  function FieldOf(key: string): Option<Field> {
    if key == "cube_size" || key == "L" then Some(CubeSize)
    else if key == "num_points" || key == "N" then Some(NumPoints)
    else if key == "min_friction" || key == "a1" then Some(MinFriction)
    else if key == "max_friction" || key == "a2" then Some(MaxFriction)
    else if key == "num_forces" || key == "M" then Some(NumForces)
    else if key == "min_acceleration" || key == "amin" then Some(MinAcceleration)
    else if key == "max_acceleration" || key == "amax" then Some(MaxAcceleration)
    else if key == "min_velocity" || key == "vmin" then Some(MinVelocity)
    else if key == "max_velocity" || key == "vmax" then Some(MaxVelocity)
    else if key == "min_initial_velocity" || key == "v0min" then Some(MinInitialVelocity)
    else if key == "max_initial_velocity" || key == "v0max" then Some(MaxInitialVelocity)
    else if key == "simulation_time" || key == "T" then Some(SimulationTime)
    else if key == "vtk_output_file" then Some(VtkOutput)
    else None
  }

  /** The assignment of one recognised key; None where the conversion throws. */
  function Assign(p: SimulationParams, f: Field, value: string, conv: Conversions): (r: Option<SimulationParams>)
    ensures r.Some? <==> Converts(f, value, conv)
    ensures r.Some? ==> Holds(r.value, f, value, conv)
    ensures r.Some? ==> forall g: Field :: g != f ==> SameField(p, r.value, g)
  {
    match f
    case CubeSize => (match conv.toDouble(value) case None => None case Some(d) => Some(p.(cubeSize := d)))
    case NumPoints => (match conv.toInt(value) case None => None case Some(n) => Some(p.(numPoints := n)))
    case MinFriction => (match conv.toDouble(value) case None => None case Some(d) => Some(p.(minFriction := d)))
    case MaxFriction => (match conv.toDouble(value) case None => None case Some(d) => Some(p.(maxFriction := d)))
    case NumForces => (match conv.toInt(value) case None => None case Some(n) => Some(p.(numForces := n)))
    case MinAcceleration =>
      (match conv.toDouble(value) case None => None case Some(d) => Some(p.(minAcceleration := d)))
    case MaxAcceleration =>
      (match conv.toDouble(value) case None => None case Some(d) => Some(p.(maxAcceleration := d)))
    case MinVelocity => (match conv.toDouble(value) case None => None case Some(d) => Some(p.(minVelocity := d)))
    case MaxVelocity => (match conv.toDouble(value) case None => None case Some(d) => Some(p.(maxVelocity := d)))
    case MinInitialVelocity =>
      (match conv.toDouble(value) case None => None case Some(d) => Some(p.(minInitialVelocity := d)))
    case MaxInitialVelocity =>
      (match conv.toDouble(value) case None => None case Some(d) => Some(p.(maxInitialVelocity := d)))
    case SimulationTime => (match conv.toInt(value) case None => None case Some(n) => Some(p.(simulationTime := n)))
    case VtkOutput => Some(p.(vtkOutputFile := value, enableVTKOutput := |value| > 0))
  }

  /** The value an assignment gives its own setting does not depend on the
      record it is made to. */
  lemma AssignIgnoresOldValue(p: SimulationParams, q: SimulationParams, f: Field, value: string, conv: Conversions)
    requires Converts(f, value, conv)
    ensures SameField(Assign(p, f, value, conv).value, Assign(q, f, value, conv).value, f)
  {
  }

  // ---------------------------------------------------------------------
  // parseConfigFile

  datatype Diagnostic =
    | CouldNotOpen
    | InvalidLine(lineNumber: nat, line: string)
    | UnknownParameter(key: string, lineNumber: nat)
    | InvalidValue(value: string, key: string, lineNumber: nat)

  datatype ParseState = ParseState(params: SimulationParams, diagnostics: seq<Diagnostic>, failed: bool)

  /** The state before the first line: VTK output switched off. */
  function Start(p: SimulationParams): ParseState {
    ParseState(p.(enableVTKOutput := false, vtkOutputFile := ""), [], false)
  }

  /** What the loop makes of one line once it is trimmed and split. */
  datatype LineKind =
    | Skipped                             // blank, or a comment
    | Malformed(text: string)                             // no '=', or nothing before it
    | Unknown(key: string)                                // no setting answers to the key
    | Setting(field: Field, key: string, value: string)   // a key that names `field`

  /** Trim the line, skip it when blank or a comment, split it and look the
      key up. */
  function Classify(line: string): LineKind {
    var t := Trimmed(line);
    if |t| == 0 || t[0] == '#' then Skipped
    else
      var (key, value) := ParseLine(t);
      if |key| == 0 then Malformed(t)
      else match FieldOf(key)
        case None => Unknown(key)
        case Some(f) => Setting(f, key, value)
  }

  /** What a line of the given kind, numbered lineNumber, does to the parse:
      a message for a malformed line or an unknown key, an assignment for a
      known key, and a message and the end of the parse when its value does
      not convert. */
  function Step(s: ParseState, kind: LineKind, lineNumber: nat, conv: Conversions): ParseState {
    if s.failed then s
    else match kind
      case Skipped => s
      case Malformed(t) => s.(diagnostics := s.diagnostics + [InvalidLine(lineNumber, t)])
      case Unknown(key) => s.(diagnostics := s.diagnostics + [UnknownParameter(key, lineNumber)])
      case Setting(f, key, value) =>
        match Assign(s.params, f, value, conv)
        case None => s.(diagnostics := s.diagnostics + [InvalidValue(value, key, lineNumber)], failed := true)
        case Some(q) => s.(params := q)
  }

  /** The kind of every line, in order. */
  function Kinds(lines: seq<string>): (kinds: seq<LineKind>)
    ensures |kinds| == |lines|
    decreases |lines|
  {
    if |lines| == 0 then [] else Kinds(lines[..|lines| - 1]) + [Classify(lines[|lines| - 1])]
  }

  /** Lines of the given kinds processed in order, numbered from `first`. */
  function Run(s: ParseState, kinds: seq<LineKind>, first: nat, conv: Conversions): ParseState
    decreases |kinds|
  {
    if |kinds| == 0 then s
    else Step(Run(s, kinds[..|kinds| - 1], first, conv), kinds[|kinds| - 1], first + |kinds| - 1, conv)
  }

  /** The lines processed in order, numbered from `first`. */
  function ParseFrom(s: ParseState, lines: seq<string>, first: nat, conv: Conversions): ParseState {
    Run(s, Kinds(lines), first, conv)
  }

  /** A kind of line that assigns the setting f. */
  predicate Assigns(kind: LineKind, f: Field) {
    kind.Setting? && kind.field == f
  }

  /** A kind of line that gives a known key a value that does not convert. */
  predicate Rejects(kind: LineKind, conv: Conversions) {
    kind.Setting? && !Converts(kind.field, kind.value, conv)
  }

  /** The line assigns the setting f. */
  predicate Sets(line: string, f: Field) {
    Assigns(Classify(line), f)
  }

  /** The line gives a known key a value that does not convert. */
  predicate RejectsValue(line: string, conv: Conversions) {
    Rejects(Classify(line), conv)
  }

  // --- the loop over kinds of lines

  /** One step: a line that assigns nothing leaves the parameters and the
      failure flag alone; a known key fails exactly when its value does not
      convert, and is assigned otherwise; at most one message is appended
      and the earlier ones are kept. */
  lemma StepEffect(s: ParseState, kind: LineKind, n: nat, conv: Conversions)
    requires !s.failed
    ensures var r := Step(s, kind, n, conv);
      (!kind.Setting? ==> r.params == s.params && !r.failed) &&
      (kind.Setting? ==> (r.failed <==> !Converts(kind.field, kind.value, conv))) &&
      (kind.Setting? && Converts(kind.field, kind.value, conv) ==>
         r.params == Assign(s.params, kind.field, kind.value, conv).value) &&
      |s.diagnostics| <= |r.diagnostics| <= |s.diagnostics| + 1 &&
      r.diagnostics[..|s.diagnostics|] == s.diagnostics
  {
  }

  /** The first k + 1 lines are the first k and one more step. */
  lemma RunNext(s: ParseState, kinds: seq<LineKind>, k: nat, first: nat, conv: Conversions)
    requires k < |kinds|
    ensures Run(s, kinds[..k + 1], first, conv) == Step(Run(s, kinds[..k], first, conv), kinds[k], first + k, conv)
  {
    assert kinds[..k + 1][..k] == kinds[..k];
  }

  /** Lines of kinds a + b: those of a, then those of b with the numbering
      continued. */
  lemma {:induction false} RunAppend(s: ParseState, a: seq<LineKind>, b: seq<LineKind>, first: nat, conv: Conversions)
    ensures Run(s, a + b, first, conv) == Run(Run(s, a, first, conv), b, first + |a|, conv)
    decreases |b|
  {
    if |b| == 0 {
      assert a + b == a;
    } else {
      RunAppend(s, a, b[..|b| - 1], first, conv);
      assert (a + b)[..|a + b| - 1] == a + b[..|b| - 1];
    }
  }

  /** Once the parse has failed, later lines change nothing. */
  lemma {:induction false} RunFailed(s: ParseState, kinds: seq<LineKind>, first: nat, conv: Conversions)
    requires s.failed
    ensures Run(s, kinds, first, conv) == s
    decreases |kinds|
  {
    if |kinds| > 0 {
      RunFailed(s, kinds[..|kinds| - 1], first, conv);
    }
  }

  /** A parse whose first k lines fail ends where those k lines end. */
  lemma RunStopsAt(s: ParseState, kinds: seq<LineKind>, k: nat, first: nat, conv: Conversions)
    requires k <= |kinds| && Run(s, kinds[..k], first, conv).failed
    ensures Run(s, kinds, first, conv) == Run(s, kinds[..k], first, conv)
  {
    RunAppend(s, kinds[..k], kinds[k..], first, conv);
    assert kinds[..k] + kinds[k..] == kinds;
    RunFailed(Run(s, kinds[..k], first, conv), kinds[k..], first + k, conv);
  }

  /** Messages are only ever appended, at most one per line. */
  lemma {:induction false} RunAppendsDiagnostics(s: ParseState, kinds: seq<LineKind>, first: nat, conv: Conversions)
    ensures var r := Run(s, kinds, first, conv);
      |s.diagnostics| <= |r.diagnostics| <= |s.diagnostics| + |kinds| &&
      r.diagnostics[..|s.diagnostics|] == s.diagnostics
    decreases |kinds|
  {
    if |kinds| > 0 {
      var mid := Run(s, kinds[..|kinds| - 1], first, conv);
      RunAppendsDiagnostics(s, kinds[..|kinds| - 1], first, conv);
      if !mid.failed {
        StepEffect(mid, kinds[|kinds| - 1], first + |kinds| - 1, conv);
        var r := Run(s, kinds, first, conv);
        assert r.diagnostics[..|s.diagnostics|] == r.diagnostics[..|mid.diagnostics|][..|s.diagnostics|];
      }
    }
  }

  /** Some element of init + [last] satisfies p exactly when some element of
      init does or last does. */
  lemma ExistsInPrefixOrLast<T>(init: seq<T>, last: T, p: T -> bool)
    ensures (exists i :: 0 <= i < |init + [last]| && p((init + [last])[i])) <==>
      (exists i :: 0 <= i < |init| && p(init[i])) || p(last)
  {
    var all := init + [last];
    if exists i :: 0 <= i < |init| && p(init[i]) {
      var i :| 0 <= i < |init| && p(init[i]);
      assert all[i] == init[i];
    }
    assert all[|init|] == last;
  }

  /** The parse fails exactly when some line rejects its value. */
  lemma {:induction false} RunFailsIff(s: ParseState, kinds: seq<LineKind>, first: nat, conv: Conversions)
    ensures Run(s, kinds, first, conv).failed <==>
      s.failed || exists i :: 0 <= i < |kinds| && Rejects(kinds[i], conv)
    decreases |kinds|
  {
    if |kinds| > 0 {
      var init := kinds[..|kinds| - 1];
      var last := kinds[|kinds| - 1];
      RunFailsIff(s, init, first, conv);
      var mid := Run(s, init, first, conv);
      if !mid.failed {
        StepEffect(mid, last, first + |kinds| - 1, conv);
      }
      assert kinds == init + [last];
      ExistsInPrefixOrLast(init, last, k => Rejects(k, conv));
    }
  }

  /** A step on a line that does not assign f leaves f alone. */
  lemma StepKeepsUnassigned(s: ParseState, kind: LineKind, n: nat, conv: Conversions, f: Field)
    requires !Assigns(kind, f)
    ensures SameField(Step(s, kind, n, conv).params, s.params, f)
  {
    if !s.failed && kind.Setting? && Converts(kind.field, kind.value, conv) {
      SameFieldSymmetric(s.params, Step(s, kind, n, conv).params, f);
    } else {
      SameFieldReflexive(s.params, f);
    }
  }

  /** A step on a line that assigns f and does not fail gives f the
      converted value, whatever f held before. */
  lemma StepAssigns(s: ParseState, kind: LineKind, n: nat, conv: Conversions, f: Field, p: SimulationParams)
    requires Assigns(kind, f) && !Step(s, kind, n, conv).failed
    ensures Converts(f, kind.value, conv)
    ensures SameField(Step(s, kind, n, conv).params, Assign(p, f, kind.value, conv).value, f)
  {
    StepEffect(s, kind, n, conv);
    AssignIgnoresOldValue(s.params, p, f, kind.value, conv);
  }

  /** A setting no line assigns keeps its value. */
  lemma {:induction false} RunKeepsUnassigned(s: ParseState, kinds: seq<LineKind>, first: nat, conv: Conversions, f: Field)
    requires forall i :: 0 <= i < |kinds| ==> !Assigns(kinds[i], f)
    ensures SameField(Run(s, kinds, first, conv).params, s.params, f)
    decreases |kinds|
  {
    if |kinds| == 0 {
      SameFieldReflexive(s.params, f);
    } else {
      var mid := Run(s, kinds[..|kinds| - 1], first, conv);
      RunKeepsUnassigned(s, kinds[..|kinds| - 1], first, conv, f);
      StepKeepsUnassigned(mid, kinds[|kinds| - 1], first + |kinds| - 1, conv, f);
      SameFieldTransitive(Run(s, kinds, first, conv).params, mid.params, s.params, f);
    }
  }

  /** Of several lines assigning the same setting, the last one (the i-th)
      decides its value, provided the parse does not fail. */
  lemma {:induction false} RunLastAssignmentWins(s: ParseState, kinds: seq<LineKind>, i: nat, f: Field, first: nat,
                                                 conv: Conversions)
    requires i < |kinds| && Assigns(kinds[i], f)
    requires forall j :: i < j < |kinds| ==> !Assigns(kinds[j], f)
    requires !Run(s, kinds, first, conv).failed
    ensures Converts(f, kinds[i].value, conv)
    ensures SameField(Run(s, kinds, first, conv).params, Assign(s.params, f, kinds[i].value, conv).value, f)
    decreases |kinds|
  {
    var n := |kinds| - 1;
    var mid := Run(s, kinds[..n], first, conv);
    if i == n {
      StepAssigns(mid, kinds[n], first + n, conv, f, s.params);
    } else {
      RunLastAssignmentWins(s, kinds[..n], i, f, first, conv);
      StepKeepsUnassigned(mid, kinds[n], first + n, conv, f);
      SameFieldTransitive(Run(s, kinds, first, conv).params, mid.params,
                          Assign(s.params, f, kinds[i].value, conv).value, f);
    }
  }

  /** The output flag is on exactly when the output file name is non-empty. */
  predicate VtkFlagMatches(p: SimulationParams) {
    p.enableVTKOutput <==> |p.vtkOutputFile| > 0
  }

  /** Every line keeps the flag in step with the file name: the only key
      that touches either sets both together. */
  lemma {:induction false} RunKeepsVtkFlag(s: ParseState, kinds: seq<LineKind>, first: nat, conv: Conversions)
    requires VtkFlagMatches(s.params)
    ensures VtkFlagMatches(Run(s, kinds, first, conv).params)
    decreases |kinds|
  {
    if |kinds| > 0 {
      var last := kinds[|kinds| - 1];
      var mid := Run(s, kinds[..|kinds| - 1], first, conv);
      RunKeepsVtkFlag(s, kinds[..|kinds| - 1], first, conv);
      if !mid.failed {
        StepEffect(mid, last, first + |kinds| - 1, conv);
        if last.Setting? && last.field != VtkOutput && Converts(last.field, last.value, conv) {
          assert SameField(mid.params, Assign(mid.params, last.field, last.value, conv).value, VtkOutput);
        }
      }
    }
  }

  // --- the same, stated on the lines of the file

  /** The kind of the i-th line is that of the line alone. */
  lemma {:induction false} KindsAt(lines: seq<string>)
    ensures forall i :: 0 <= i < |lines| ==> Kinds(lines)[i] == Classify(lines[i])
    decreases |lines|
  {
    if |lines| > 0 {
      KindsAt(lines[..|lines| - 1]);
    }
  }

  /** The parse fails exactly when some line gives a known key a value that
      does not convert; blank, comment, malformed and unknown-key lines never
      make it fail. */
  lemma ParseFailsIff(s: ParseState, lines: seq<string>, first: nat, conv: Conversions)
    ensures ParseFrom(s, lines, first, conv).failed <==>
      s.failed || exists i :: 0 <= i < |lines| && RejectsValue(lines[i], conv)
  {
    var kinds := Kinds(lines);
    RunFailsIff(s, kinds, first, conv);
    KindsAt(lines);
    if exists i :: 0 <= i < |kinds| && Rejects(kinds[i], conv) {
      var i :| 0 <= i < |kinds| && Rejects(kinds[i], conv);
      assert RejectsValue(lines[i], conv);
    }
  }

  /** Messages are only appended, at most one per line. */
  lemma ParseAppendsDiagnostics(s: ParseState, lines: seq<string>, first: nat, conv: Conversions)
    ensures var r := ParseFrom(s, lines, first, conv);
      |s.diagnostics| <= |r.diagnostics| <= |s.diagnostics| + |lines| &&
      r.diagnostics[..|s.diagnostics|] == s.diagnostics
  {
    RunAppendsDiagnostics(s, Kinds(lines), first, conv);
  }

  /** A setting no line assigns keeps its value. */
  lemma ParseKeepsUnmentioned(s: ParseState, lines: seq<string>, first: nat, conv: Conversions, f: Field)
    requires forall i :: 0 <= i < |lines| ==> !Sets(lines[i], f)
    ensures SameField(ParseFrom(s, lines, first, conv).params, s.params, f)
  {
    KindsAt(lines);
    RunKeepsUnassigned(s, Kinds(lines), first, conv, f);
  }

  /** Of several lines assigning the same setting, the last one decides its
      value, provided the parse does not fail. */
  lemma LastAssignmentWins(s: ParseState, lines: seq<string>, i: nat, first: nat, conv: Conversions, f: Field)
    requires i < |lines| && Sets(lines[i], f)
    requires forall j :: i < j < |lines| ==> !Sets(lines[j], f)
    requires !ParseFrom(s, lines, first, conv).failed
    ensures Converts(f, Classify(lines[i]).value, conv)
    ensures SameField(ParseFrom(s, lines, first, conv).params,
                      Assign(s.params, f, Classify(lines[i]).value, conv).value, f)
  {
    KindsAt(lines);
    RunLastAssignmentWins(s, Kinds(lines), i, f, first, conv);
  }

  /** After any parse that starts from Start, enableVTKOutput holds exactly
      when the output file name is non-empty. */
  lemma VtkFlagFollowsFileName(p: SimulationParams, lines: seq<string>, conv: Conversions)
    ensures VtkFlagMatches(ParseFrom(Start(p), lines, 1, conv).params)
  {
    RunKeepsVtkFlag(Start(p), Kinds(lines), 1, conv);
  }

  /** Keys are lowercased before the comparison, so no key ever equals one of
      the one-letter aliases "L", "N", "M", "T". */
  lemma AliasesNeverMatch(line: string)
    ensures ParseLine(line).0 !in {"L", "N", "M", "T"}
  {
    ParseLineShape(line);
    var key := ParseLine(line).0;
    if key in {"L", "N", "M", "T"} {
      assert IsUpper(key[0]);
      assert false;
    }
  }

  /** A line such as "L = 5" has the key "l", which is reported as an
      unknown parameter. */
  lemma AliasLineIsUnknown(line: string)
    requires var t := Trimmed(line); |t| > 0 && t[0] != '#' && ParseLine(t).0 in {"l", "n", "m", "t"}
    ensures Classify(line) == Unknown(ParseLine(Trimmed(line)).0)
  {
  }

  /** parseConfigFile(filename, params) on the file's lines: the result, the
      updated parameters and the messages printed along the way. */
  method ParseConfigFile(file: Option<seq<string>>, params: SimulationParams, conv: Conversions)
    returns (ok: bool, result: SimulationParams, diagnostics: seq<Diagnostic>)
    ensures file.None? ==> !ok && result == params && diagnostics == [CouldNotOpen]
    ensures file.Some? ==>
      var s := ParseFrom(Start(params), file.value, 1, conv);
      ok == !s.failed && result == s.params && diagnostics == s.diagnostics
  {
    if file.None? {
      return false, params, [CouldNotOpen];
    }
    var lines := file.value;
    ghost var kinds := Kinds(lines);
    KindsAt(lines);
    result := params;
    result := result.(enableVTKOutput := false);
    result := result.(vtkOutputFile := "");
    diagnostics := [];
    var lineNumber := 0;
    while lineNumber < |lines|
      invariant 0 <= lineNumber <= |lines|
      invariant Run(Start(params), kinds[..lineNumber], 1, conv) == ParseState(result, diagnostics, false)
    {
      RunNext(Start(params), kinds, lineNumber, 1, conv);
      var failed;
      result, diagnostics, failed := ParseOneLine(lines[lineNumber], lineNumber + 1, result, diagnostics, conv);
      lineNumber := lineNumber + 1;
      if failed {
        RunStopsAt(Start(params), kinds, lineNumber, 1, conv);
        return false, result, diagnostics;
      }
    }
    assert kinds[..lineNumber] == kinds;
    return true, result, diagnostics;
  }

  /** The body of parseConfigFile's loop for one line: trim it, skip it if
      blank or a comment, split it, and dispatch on the key. */
  method ParseOneLine(line: string, lineNumber: nat, params: SimulationParams, diagnostics: seq<Diagnostic>,
                      conv: Conversions)
    returns (result: SimulationParams, messages: seq<Diagnostic>, failed: bool)
    ensures Step(ParseState(params, diagnostics, false), Classify(line), lineNumber, conv) ==
            ParseState(result, messages, failed)
  {
    result, messages, failed := params, diagnostics, false;
    var trimmed := Trim(line);
    if |trimmed| == 0 || trimmed[0] == '#' {
      return;
    }
    var (key, value) := ParseLine(trimmed);
    if |key| == 0 {
      messages := messages + [InvalidLine(lineNumber, trimmed)];
      return;
    }
    match FieldOf(key)
    case None =>
      messages := messages + [UnknownParameter(key, lineNumber)];
    case Some(f) =>
      match Assign(result, f, value, conv)
      case None =>
        messages := messages + [InvalidValue(value, key, lineNumber)];
        failed := true;
      case Some(q) =>
        result := q;
  }
}
