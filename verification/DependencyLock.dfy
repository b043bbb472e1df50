/** The hash-pinned lock of a plugin's Python packages: the line printer, the reader, and the checks
    of the declared packages and the vendored wheels. */
module DependencyLock {
  import opened Prelude
  import opened Text

  // ---------- Strings ----------

  /** Where `splitlines` ends a line. */
  predicate IsBreak(c: char) {
    10 <= c as int <= 13 || 28 <= c as int <= 30
  }

  /** The text before the first white space. */
  function FirstWord(s: string): string {
    if s == [] || IsSpace(s[0]) then [] else [s[0]] + FirstWord(s[1..])
  }

  function SplitLines(s: string): seq<string> {
    if s == [] then []
    else
      var i := FirstBreak(s);
      if i == |s| then [s] else [s[..i]] + SplitLines(s[i + 1..])
  }

  function FirstBreak(s: string): (i: nat)
    ensures i <= |s| && (i < |s| ==> IsBreak(s[i]))
    ensures forall j :: 0 <= j < i ==> !IsBreak(s[j])
  {
    if s == [] || IsBreak(s[0]) then 0 else 1 + FirstBreak(s[1..])
  }

  function JoinLines(lines: seq<string>): string {
    if lines == [] then [] else lines[0] + "\n" + JoinLines(lines[1..])
  }

  lemma SplitFirstLine(line: string, rest: string)
    requires forall i :: 0 <= i < |line| ==> !IsBreak(line[i])
    ensures SplitLines(line + "\n" + rest) == [line] + SplitLines(rest)
  {
    var s := line + "\n" + rest;
    assert s[|line|] == '\n' && s[..|line|] == line && s[|line| + 1..] == rest;
    assert forall j :: 0 <= j < |line| ==> s[j] == line[j];
    assert FirstBreak(s) == |line|;
  }

  lemma {:induction false} LinesRoundTrip(lines: seq<string>)
    requires forall l, c :: l in lines && c in l ==> !IsBreak(c)
    ensures SplitLines(JoinLines(lines)) == lines
  {
    if lines != [] {
      hide IsBreak, SplitLines;
      assert lines[0] in lines;
      SplitFirstLine(lines[0], JoinLines(lines[1..]));
      LinesRoundTrip(lines[1..]);
    }
  }

  // ---------- Names, versions and wheels ----------

  predicate Alphanumeric(c: char) {
    IsDigit(c) || 'a' <= c <= 'z' || 'A' <= c <= 'Z'
  }

  predicate Separator(c: char) {
    c == '-' || c == '_' || c == '.'
  }

  predicate NamePattern(s: string) {
    s != [] && Alphanumeric(s[0]) && forall c :: c in s ==> Alphanumeric(c) || Separator(c)
  }

  predicate VersionPattern(s: string) {
    s != [] && forall c :: c in s ==> Alphanumeric(c) || Separator(c) || c == '!' || c == '+'
  }

  function SkipSeparators(s: string): (r: string)
    ensures |r| <= |s| && (r != [] ==> !Separator(r[0]))
    ensures forall c :: c in r ==> c in s
  {
    if s != [] && Separator(s[0]) then SkipSeparators(s[1..]) else s
  }

  /** Runs of separators become one hyphen, letters lower case. */
  function Normalize(s: string): string
    decreases |s|
  {
    if s == [] then []
    else if Separator(s[0]) then ['-'] + Normalize(SkipSeparators(s))
    else [Lower(s[0])] + Normalize(s[1..])
  }

  /** Lower case letters, digits and single hyphens. */
  ghost predicate Normal(s: string) {
    && (forall i :: 0 <= i < |s| ==> IsDigit(s[i]) || 'a' <= s[i] <= 'z' || s[i] == '-')
    && (forall i :: 0 <= i < |s| - 1 ==> !(s[i] == '-' && s[i + 1] == '-'))
  }

  lemma {:induction false} NormalizeIsNormal(s: string)
    requires forall i :: 0 <= i < |s| ==> Alphanumeric(s[i]) || Separator(s[i])
    ensures Normal(Normalize(s))
    ensures s != [] ==> Normalize(s) != [] && (Normalize(s)[0] == '-' <==> Separator(s[0]))
    decreases |s|
  {
    if s != [] {
      var rest := if Separator(s[0]) then SkipSeparators(s) else s[1..];
      assert forall i :: 0 <= i < |rest| ==> rest[i] in s;
      NormalizeIsNormal(rest);
    }
  }

  lemma {:induction false} NormalIsFixed(s: string)
    requires Normal(s)
    ensures Normalize(s) == s
    decreases |s|
  {
    if s != [] {
      assert s == [s[0]] + s[1..];
      if s[0] == '-' {
        assert s[1..] == [] || s[1..][0] == s[1];
        assert SkipSeparators(s) == SkipSeparators(s[1..]) == s[1..];
      }
      NormalIsFixed(s[1..]);
    }
  }

  /** Normalised names (PEP 503, section "Normalized Names") are names, contain no "--" and are
      unchanged by normalising again. */
  lemma NormalizedNames(s: string)
    requires NamePattern(s)
    ensures Normal(Normalize(s)) && NamePattern(Normalize(s))
    ensures Normalize(Normalize(s)) == Normalize(s)
  {
    NormalizeIsNormal(s);
    NormalIsFixed(Normalize(s));
  }

  datatype Pin = Pin(name: string, version: string)

  /** `_parse_exact_requirement`; None where it raises. */
  function ParseExact(requirement: string): Option<Pin> {
    var s := Strip(requirement);
    var i := FirstIndex(s, '=');
    if i + 1 >= |s| || s[i + 1] != '=' then None
    else
      var name, version := StripRight(s[..i]), StripLeft(s[i + 2..]);
      if NamePattern(name) && VersionPattern(version) then Some(Pin(name, version)) else None
  }

  function NormalPin(requirement: string): Option<Pin> {
    match ParseExact(requirement)
    case None => None
    case Some(p) => Some(Pin(Normalize(p.name), p.version))
  }

  /** A file of the wheelhouse: its name and the digest of its content. */
  datatype Wheel = Wheel(filename: string, digest: string)

  function JoinDash(parts: seq<string>): string {
    if parts == [] then [] else if |parts| == 1 then parts[0] else parts[0] + "-" + JoinDash(parts[1..])
  }

  function WheelParts(filename: string): seq<string> {
    if |filename| >= 4 && filename[|filename| - 4..] == ".whl" then Split(filename[..|filename| - 4], '-') else []
  }

  predicate IsWheel(w: Wheel) {
    |WheelParts(w.filename)| >= 5
  }

  predicate IsPure(w: Wheel) {
    IsWheel(w) &&
    var parts := WheelParts(w.filename);
    var tag := JoinDash(parts[|parts| - 3..]);
    tag == "py3-none-any" || tag == "py2.py3-none-any"
  }

  predicate IsFor(w: Wheel, name: string, version: string) {
    && IsWheel(w)
    && Normalize(WheelParts(w.filename)[0]) == name
    && Normalize(WheelParts(w.filename)[1]) == Normalize(version)
  }

  datatype LockError = NoPackages | NotPinned | Duplicate | NativeWheel | MissingWheel | MultipleWheels

  function WheelsFor(house: seq<Wheel>, name: string, version: string): (r: seq<Wheel>)
    ensures forall w :: w in r <==> w in house && IsFor(w, name, version)
  {
    if house == [] then []
    else
      var last, front := house[|house| - 1], WheelsFor(house[..|house| - 1], name, version);
      if IsFor(last, name, version) then front + [last] else front
  }

  /** A native wheel anywhere in the wheelhouse is refused. */
  function FindWheel(house: seq<Wheel>, name: string, version: string, allowNative: bool): Result<Wheel, LockError> {
    if !allowNative && exists w :: w in house && IsWheel(w) && !IsPure(w) then Err(NativeWheel)
    else
      var matches := WheelsFor(house, name, version);
      if matches == [] then Err(MissingWheel) else if |matches| > 1 then Err(MultipleWheels) else Ok(matches[0])
  }

  method FindWheelArtifact(house: seq<Wheel>, name: string, version: string, allowNative: bool)
    returns (r: Result<Wheel, LockError>)
    ensures r == FindWheel(house, name, version, allowNative)
  {
    var matches: seq<Wheel> := [];
    for i := 0 to |house|
      invariant matches == WheelsFor(house[..i], name, version)
      invariant allowNative || forall w :: w in house[..i] && IsWheel(w) ==> IsPure(w)
    {
      assert house[..i + 1][..i] == house[..i];
      if IsWheel(house[i]) {
        if !allowNative && !IsPure(house[i]) { return Err(NativeWheel); }
        if IsFor(house[i], name, version) {
          matches := matches + [house[i]];
        }
      }
    }
    assert house[..|house|] == house;
    if matches == [] { return Err(MissingWheel); }
    if |matches| > 1 { return Err(MultipleWheels); }
    return Ok(matches[0]);
  }

  // ---------- Locking ----------

  datatype Locked = Locked(name: string, version: string, wheel: Wheel)

  function PinText(name: string, version: string): string {
    name + "==" + version
  }

  function Line(name: string, version: string, digest: string): string {
    PinText(name, version) + " --hash=sha256:" + digest
  }

  function LineOf(l: Locked): string {
    Line(l.name, l.version, l.wheel.digest)
  }

  function LockPackages(packages: seq<string>, house: seq<Wheel>): Result<seq<Locked>, LockError> {
    if packages == [] then Ok([])
    else
      match LockPackages(packages[..|packages| - 1], house)
      case Err(e) => Err(e)
      case Ok(before) =>
        match NormalPin(packages[|packages| - 1])
        case None => Err(NotPinned)
        case Some(p) =>
          if exists l :: l in before && l.name == p.name then Err(Duplicate)
          else
            match FindWheel(house, p.name, p.version, false)
            case Err(e) => Err(e)
            case Ok(w) => Ok(before + [Locked(p.name, p.version, w)])
  }

  function Lock(packages: seq<string>, house: seq<Wheel>): Result<seq<Locked>, LockError> {
    if packages == [] then Err(NoPackages) else LockPackages(packages, house)
  }

  lemma {:induction false} LockStops(packages: seq<string>, house: seq<Wheel>, n: nat)
    requires n <= |packages| && LockPackages(packages[..n], house).Err?
    ensures LockPackages(packages, house) == LockPackages(packages[..n], house)
    decreases |packages|
  {
    if n < |packages| {
      assert packages[..|packages| - 1][..n] == packages[..n];
      LockStops(packages[..|packages| - 1], house, n);
    } else {
      assert packages[..n] == packages;
    }
  }

  lemma LockNext(packages: seq<string>, house: seq<Wheel>, i: nat, locked: seq<Locked>)
    requires i < |packages| && LockPackages(packages[..i], house) == Ok(locked)
    ensures LockPackages(packages[..i + 1], house) ==
            match NormalPin(packages[i])
            case None => Err(NotPinned)
            case Some(p) =>
              if exists l :: l in locked && l.name == p.name then Err(Duplicate)
              else match FindWheel(house, p.name, p.version, false)
                case Err(e) => Err(e)
                case Ok(w) => Ok(locked + [Locked(p.name, p.version, w)])
  {
    assert packages[..i + 1][..i] == packages[..i];
  }

  method LockRequirements(packages: seq<string>, house: seq<Wheel>) returns (r: Result<seq<Locked>, LockError>)
    ensures r == Lock(packages, house)
  {
    hide LockPackages, FindWheel, NormalPin;
    if packages == [] { return Err(NoPackages); }
    var locked: seq<Locked> := [];
    var seen: set<string> := {};
    LockNothing(house);
    for i := 0 to |packages|
      invariant LockPackages(packages[..i], house) == Ok(locked)
      invariant forall n :: n in seen <==> exists l :: l in locked && l.name == n
    {
      LockNext(packages, house, i, locked);
      var pin := NormalPin(packages[i]);
      if pin.None? || pin.value.name in seen {
        LockStops(packages, house, i + 1);
        return Err(if pin.None? then NotPinned else Duplicate);
      }
      seen := seen + {pin.value.name};
      var wheel := FindWheelArtifact(house, pin.value.name, pin.value.version, false);
      if wheel.Err? {
        LockStops(packages, house, i + 1);
        return Err(wheel.error);
      }
      locked := locked + [Locked(pin.value.name, pin.value.version, wheel.value)];
    }
    assert packages[..|packages|] == packages;
    return Ok(locked);
  }

  lemma LockNothing(house: seq<Wheel>)
    ensures LockPackages([], house) == Ok([])
  {
  }

  function InsertLine(line: string, sorted: seq<string>): (r: seq<string>)
    ensures forall l :: l in r <==> l == line || l in sorted
    ensures |r| == |sorted| + 1
  {
    if sorted == [] || !TextLess(sorted[0], line) then [line] + sorted else [sorted[0]] + InsertLine(line, sorted[1..])
  }

  function SortLines(lines: seq<string>): (r: seq<string>)
    ensures forall l :: l in r <==> l in lines
    ensures |r| == |lines|
  {
    if lines == [] then [] else InsertLine(lines[0], SortLines(lines[1..]))
  }

  function Lines(locked: seq<Locked>): (r: seq<string>)
    ensures |r| == |locked| && forall i :: 0 <= i < |r| ==> r[i] == LineOf(locked[i])
  {
    seq(|locked|, i requires 0 <= i < |locked| => LineOf(locked[i]))
  }

  /** The text of `requirements.lock`. */
  function LockText(locked: seq<Locked>): string {
    JoinLines(SortLines(Lines(locked)))
  }

  // ---------- Reading and checking ----------

  datatype ReadError = PipOption | MissingHash | UnsafeCharacter | BadPin | Empty

  predicate IsUnsafe(c: char) {
    c == ';' || c == '&' || c == '|' || c == '`' || c == '$' || c == '\n' || c == '\r'
  }

  /** The requirement part of a locked line. */
  function Requirement(line: string): string {
    match Occurrence(line, "--hash=")
    case None => Strip(line)
    case Some(i) => Strip(line[..i])
  }

  /** One line: nothing for a blank or a comment. */
  function ReadLine(line: string): Result<seq<string>, ReadError> {
    var s := Strip(line);
    if s == [] || s[0] == '#' then Ok([])
    else if s[0] == '-' then Err(PipOption)
    else if Occurrence(s, "--hash=sha256:").None? then Err(MissingHash)
    else if exists c :: c in s && IsUnsafe(c) then Err(UnsafeCharacter)
    else if ParseExact(Requirement(s)).None? then Err(BadPin)
    else Ok([s])
  }

  function ReadLines(lines: seq<string>): Result<seq<string>, ReadError> {
    if lines == [] then Ok([])
    else
      match ReadLines(lines[..|lines| - 1])
      case Err(e) => Err(e)
      case Ok(before) =>
        match ReadLine(lines[|lines| - 1])
        case Err(e) => Err(e)
        case Ok(more) => Ok(before + more)
  }

  function ReadLock(text: string): Result<seq<string>, ReadError> {
    match ReadLines(SplitLines(text))
    case Err(e) => Err(e)
    case Ok(requirements) => if requirements == [] then Err(Empty) else Ok(requirements)
  }

  lemma {:induction false} ReadStops(lines: seq<string>, n: nat)
    requires n <= |lines| && ReadLines(lines[..n]).Err?
    ensures ReadLines(lines) == ReadLines(lines[..n])
    decreases |lines|
  {
    if n < |lines| {
      assert lines[..|lines| - 1][..n] == lines[..n];
      ReadStops(lines[..|lines| - 1], n);
    } else {
      assert lines[..n] == lines;
    }
  }

  lemma LineReadIsPinned(line: string)
    ensures ReadLine(line).Ok? ==> forall q :: q in ReadLine(line).value ==> NormalPin(Requirement(q)).Some?
  {
    hide Strip, Occurrence, Requirement;
  }

  method ReadLockedRequirements(text: string) returns (r: Result<seq<string>, ReadError>)
    ensures r == ReadLock(text)
    ensures r.Ok? ==> r.value != [] && forall q :: q in r.value ==> NormalPin(Requirement(q)).Some?
  {
    hide ReadLine, NormalPin, Requirement, SplitLines;
    var lines := SplitLines(text);
    var requirements: seq<string> := [];
    for i := 0 to |lines|
      invariant ReadLines(lines[..i]) == Ok(requirements)
      invariant forall q :: q in requirements ==> NormalPin(Requirement(q)).Some?
    {
      assert lines[..i + 1][..i] == lines[..i];
      var line := ReadLine(lines[i]);
      LineReadIsPinned(lines[i]);
      if line.Err? {
        ReadStops(lines, i + 1);
        return Err(line.error);
      }
      requirements := requirements + line.value;
    }
    assert lines[..|lines|] == lines;
    return if requirements == [] then Err(Empty) else Ok(requirements);
  }

  /** The versions by normalised name; None where a requirement is not an exact pin. */
  function Versions(requirements: seq<string>): (r: Option<map<string, string>>)
    ensures r.Some? <==> forall q :: q in requirements ==> NormalPin(q).Some?
    ensures r.Some? ==> forall q :: q in requirements ==> NormalPin(q).value.name in r.value
    ensures r.Some? ==> forall n :: n in r.value ==> exists q :: q in requirements && NormalPin(q) == Some(Pin(n, r.value[n]))
  {
    if requirements == [] then Some(map[])
    else
      var last := requirements[|requirements| - 1];
      assert requirements == requirements[..|requirements| - 1] + [last];
      match Versions(requirements[..|requirements| - 1])
      case None => None
      case Some(m) => if NormalPin(last).None? then None else Some(m[NormalPin(last).value.name := NormalPin(last).value.version])
  }

  function Pinned(lines: seq<string>): (r: seq<string>)
    ensures |r| == |lines| && forall i :: 0 <= i < |r| ==> r[i] == Requirement(lines[i])
  {
    seq(|lines|, i requires 0 <= i < |lines| => Requirement(lines[i]))
  }

  /** `_validate_locked_requirements`: every declared package is locked at its version. */
  predicate DeclaredAreLocked(declared: seq<string>, lines: seq<string>) {
    var d, l := Versions(declared), Versions(Pinned(lines));
    d.Some? && l.Some? && forall n :: n in d.value ==> n in l.value && l.value[n] == d.value[n]
  }

  /** What one locked line expects of the wheelhouse. */
  datatype Expectation = Expectation(name: string, version: string, digest: string)

  function Expects(line: string): Option<Expectation> {
    match Occurrence(line, "--hash=sha256:")
    case None => None
    case Some(i) =>
      var pin, digest := NormalPin(Strip(line[..i])), FirstWord(Strip(line[i + 14..]));
      if pin.None? || digest == [] then None else Some(Expectation(pin.value.name, pin.value.version, digest))
  }

  /** The wheelhouse has exactly one wheel for the expectation, with its digest. */
  predicate Met(house: seq<Wheel>, e: Expectation, allowNative: bool) {
    match FindWheel(house, e.name, e.version, allowNative)
    case Err(_) => false
    case Ok(w) => w.digest == e.digest
  }

  /** A later line for the same name replaces an earlier one. */
  function Expected(lines: seq<string>): (r: Option<map<string, Expectation>>)
    ensures r.Some? <==> forall l :: l in lines ==> Expects(l).Some?
    ensures r.Some? ==> forall n :: n in r.value ==> exists l :: l in lines && Expects(l) == Some(r.value[n])
  {
    if lines == [] then Some(map[])
    else
      var last := lines[|lines| - 1];
      assert lines == lines[..|lines| - 1] + [last];
      match Expected(lines[..|lines| - 1])
      case None => None
      case Some(m) => if Expects(last).None? then None else Some(m[Expects(last).value.name := Expects(last).value])
  }

  predicate WheelhouseMatches(house: seq<Wheel>, lines: seq<string>, allowNative: bool) {
    var expected := Expected(lines);
    expected.Some? && forall n :: n in expected.value ==> Met(house, expected.value[n], allowNative)
  }

  method ExpectedWheels(lines: seq<string>) returns (r: Option<map<string, Expectation>>)
    ensures r == Expected(lines)
  {
    var expected: map<string, Expectation> := map[];
    for i := 0 to |lines|
      invariant Expected(lines[..i]) == Some(expected)
    {
      assert lines[..i + 1][..i] == lines[..i];
      var e := Expects(lines[i]);
      if e.None? {
        assert lines[i] in lines;
        return None;
      }
      expected := expected[e.value.name := e.value];
    }
    assert lines[..|lines|] == lines;
    return Some(expected);
  }

  method MeetAll(house: seq<Wheel>, expected: map<string, Expectation>, allowNative: bool) returns (ok: bool)
    ensures ok == forall n :: n in expected ==> Met(house, expected[n], allowNative)
  {
    var pending := expected.Keys;
    while pending != {}
      invariant pending <= expected.Keys
      invariant forall n :: n in expected && n !in pending ==> Met(house, expected[n], allowNative)
    {
      var n :| n in pending;
      var found := FindWheelArtifact(house, expected[n].name, expected[n].version, allowNative);
      if found.Err? || found.value.digest != expected[n].digest { return false; }
      pending := pending - {n};
    }
    return true;
  }

  method ValidateWheelhouse(house: seq<Wheel>, lines: seq<string>, allowNative: bool) returns (ok: bool)
    ensures ok == WheelhouseMatches(house, lines, allowNative)
  {
    var expected := ExpectedWheels(lines);
    if expected.None? { return false; }
    ok := MeetAll(house, expected.value, allowNative);
  }

  // ---------- A printed line is read back ----------

  ghost predicate HexDigest(s: string) {
    |s| == 64 && forall i :: 0 <= i < |s| ==> IsDigit(s[i]) || 'a' <= s[i] <= 'f'
  }

  lemma NoSpaceNoStrip(s: string)
    requires s != [] && !IsSpace(s[0]) && !IsSpace(s[|s| - 1])
    ensures StripLeft(s) == s && StripRight(s) == s && Strip(s) == s
  {
  }

  lemma {:induction false} WordIsWhole(s: string)
    requires forall i :: 0 <= i < |s| ==> !IsSpace(s[i])
    ensures FirstWord(s) == s
  {
    if s != [] {
      WordIsWhole(s[1..]);
    }
  }

  /** Where "=" can occur in a line up to its hash. */
  lemma EqualsSigns(name: string, version: string, digest: string, x: nat)
    requires NamePattern(name) && VersionPattern(version) && x < |name| + |version| + 9
    ensures Line(name, version, digest)[x] == '=' <==> x == |name| || x == |name| + 1
  {
    var s, n, k := Line(name, version, digest), |name|, |name| + |version| + 3;
    if x < n {
      assert s[x] == name[x] && name[x] in name;
    } else if n + 2 <= x < k - 1 {
      assert s[x] == version[x - n - 2] && version[x - n - 2] in version;
    } else if x >= k {
      var hash := s[k..k + 6];
      assert hash == "--hash" && s[x] == hash[x - k];
    }
  }

  /** Where "--hash=" can occur before its place in a line: only at the end of the name. */
  lemma EarlyHash(name: string, version: string, digest: string, j: nat)
    requires NamePattern(name) && VersionPattern(version) && j < |name| + |version| + 3
    ensures At(Line(name, version, digest), "--hash=", j) <==> At(name, "--hash", j) && j + 6 == |name|
  {
    var s, n := Line(name, version, digest), |name|;
    EqualsSigns(name, version, digest, j + 5);
    EqualsSigns(name, version, digest, j + 6);
    assert j + 7 <= |s|;
    var here := s[j..j + 7];
    assert here[5] == s[j + 5] && here[6] == s[j + 6];
    assert j + 6 <= n ==> name[j..j + 6] == here[..6];
    assert here == here[..6] + [here[6]];
  }

  /** A printed line splits at its own "--hash=" exactly if its name does not end in "--hash". */
  lemma SplitsAtItsHashIff(name: string, version: string, digest: string)
    requires NamePattern(name) && VersionPattern(version)
    ensures Occurrence(Line(name, version, digest), "--hash=") == Some(|name| + |version| + 3) <==>
            !(|name| >= 6 && At(name, "--hash", |name| - 6))
  {
    var s, k := Line(name, version, digest), |name| + |version| + 3;
    assert s[k..k + 7] == "--hash=";
    if |name| >= 6 && At(name, "--hash", |name| - 6) {
      EarlyHash(name, version, digest, |name| - 6);
      FirstOccurrence(s, "--hash=", |name| - 6);
    } else {
      forall j | 0 <= j < k ensures !At(s, "--hash=", j) {
        EarlyHash(name, version, digest, j);
      }
      OccurrenceIs(s, "--hash=", k);
    }
  }

  lemma NormalDoesNotEndInHash(name: string)
    requires Normal(name)
    ensures !(|name| >= 6 && At(name, "--hash", |name| - 6))
  {
    if |name| >= 6 {
      var i := |name| - 6;
      assert name[i] == name[i..i + 6][0] && name[i + 1] == name[i..i + 6][1];
    }
  }

  lemma StripTrailing(s: string)
    requires s != [] && !IsSpace(s[0]) && !IsSpace(s[|s| - 1])
    ensures Strip(s + " ") == s
  {
    assert (s + " ")[..|s|] == s;
    assert StripLeft(s + " ") == s + " ";
    NoSpaceNoStrip(s);
  }

  lemma PinTextStrips(name: string, version: string)
    requires NamePattern(name) && VersionPattern(version)
    ensures Strip(PinText(name, version)) == PinText(name, version)
    ensures Strip(PinText(name, version) + " ") == PinText(name, version)
  {
    var s := PinText(name, version);
    assert s[0] == name[0] && name[0] in name;
    assert s[|s| - 1] == version[|version| - 1] && version[|version| - 1] in version;
    hide PinText;
    NoSpaceNoStrip(s);
    StripTrailing(s);
  }

  lemma PinTextSplits(name: string, version: string)
    requires NamePattern(name)
    ensures var s, n := PinText(name, version), |name|;
            && FirstIndex(s, '=') == n && n + 1 < |s| && s[n + 1] == '='
            && s[..n] == name && s[n + 2..] == version
  {
    FirstIndexOfJoin(name, '=', "=" + version);
    assert PinText(name, version) == name + ['='] + ("=" + version);
  }

  lemma NameAndVersionStrip(name: string, version: string)
    requires NamePattern(name) && VersionPattern(version)
    ensures StripRight(name) == name && StripLeft(version) == version
  {
    assert name[|name| - 1] in name && version[0] in version;
  }

  lemma PinReadBack(name: string, version: string)
    requires NamePattern(name) && VersionPattern(version)
    ensures ParseExact(PinText(name, version)) == Some(Pin(name, version))
  {
    PinTextStrips(name, version);
    PinTextSplits(name, version);
    NameAndVersionStrip(name, version);
    hide Strip, StripLeft, StripRight, FirstIndex, NamePattern, VersionPattern, PinText;
  }

  lemma LongerHash(s: string, j: nat)
    ensures At(s, "--hash=sha256:", j) ==> At(s, "--hash=", j)
  {
    assert j + 14 <= |s| ==> s[j..j + 14][..7] == s[j..j + 7];
    assert "--hash=sha256:"[..7] == "--hash=";
  }

  lemma LineHash(name: string, version: string, digest: string)
    requires NamePattern(name) && Normal(name) && VersionPattern(version)
    ensures var s, k := Line(name, version, digest), |name| + |version| + 3;
            Occurrence(s, "--hash=") == Some(k) && Occurrence(s, "--hash=sha256:") == Some(k)
  {
    var s, k := Line(name, version, digest), |name| + |version| + 3;
    NormalDoesNotEndInHash(name);
    SplitsAtItsHashIff(name, version, digest);
    assert s[k..k + 14] == "--hash=sha256:";
    forall j | 0 <= j < k ensures !At(s, "--hash=sha256:", j) {
      EarlyHash(name, version, digest, j);
      LongerHash(s, j);
    }
    OccurrenceIs(s, "--hash=sha256:", k);
  }

  lemma LineParts(name: string, version: string, digest: string)
    requires NamePattern(name) && VersionPattern(version) && HexDigest(digest)
    ensures var s, k := Line(name, version, digest), |name| + |version| + 3;
            && k + 14 <= |s|
            && Strip(s[..k]) == PinText(name, version)
            && FirstWord(Strip(s[k + 14..])) == digest != []
  {
    var s, k := Line(name, version, digest), |name| + |version| + 3;
    PinTextStrips(name, version);
    NoSpaceNoStrip(digest);
    WordIsWhole(digest);
    assert s[..k] == PinText(name, version) + " " && s[k + 14..] == digest;
  }

  lemma LineStrips(name: string, version: string, digest: string)
    requires NamePattern(name) && VersionPattern(version) && HexDigest(digest)
    ensures var s := Line(name, version, digest); s != [] && Strip(s) == s && s[0] == name[0]
  {
    var s := Line(name, version, digest);
    assert s[0] == name[0] && name[0] in name && s[|s| - 1] == digest[|digest| - 1];
    hide Line;
    NoSpaceNoStrip(s);
  }

  /** What the readers make of a line that splits at `k` into `pinned` and `rest`. */
  lemma SplitReadBack(s: string, k: nat, pinned: string, pin: Pin, digest: string)
    requires Occurrence(s, "--hash=") == Some(k) && Occurrence(s, "--hash=sha256:") == Some(k)
    requires Strip(s[..k]) == pinned && NormalPin(pinned) == Some(pin)
    requires k + 14 <= |s| && FirstWord(Strip(s[k + 14..])) == digest != []
    ensures Requirement(s) == pinned
    ensures Expects(s) == Some(Expectation(pin.name, pin.version, digest))
  {
    hide Occurrence, Strip, NormalPin, FirstWord;
  }

  /** The requirement read from a printed line, and what it expects of the wheelhouse. */
  lemma LineReadBack(name: string, version: string, digest: string)
    requires NamePattern(name) && Normal(name) && VersionPattern(version) && HexDigest(digest)
    ensures var s := Line(name, version, digest);
            && Requirement(s) == PinText(name, version)
            && NormalPin(Requirement(s)) == Some(Pin(name, version))
            && Expects(s) == Some(Expectation(name, version, digest))
  {
    hide Line, PinText, Strip, ParseExact, Occurrence, Normalize, FirstWord, NamePattern, VersionPattern, Normal, HexDigest,
         Requirement, Expects;
    LineHash(name, version, digest);
    LineParts(name, version, digest);
    PinReadBack(name, version);
    NormalIsFixed(name);
    SplitReadBack(Line(name, version, digest), |name| + |version| + 3, PinText(name, version), Pin(name, version), digest);
  }

  lemma LineIsSafe(name: string, version: string, digest: string)
    requires NamePattern(name) && VersionPattern(version) && HexDigest(digest)
    ensures forall c :: c in Line(name, version, digest) ==> !IsUnsafe(c) && !IsBreak(c)
  {
    forall c | c in Line(name, version, digest) ensures !IsUnsafe(c) && !IsBreak(c) {
      assert c in name || c in "==" || c in version || c in " --hash=sha256:" || c in digest;
    }
  }

  lemma LineReads(name: string, version: string, digest: string)
    requires NamePattern(name) && Normal(name) && VersionPattern(version) && HexDigest(digest)
    ensures ReadLine(Line(name, version, digest)) == Ok([Line(name, version, digest)])
  {
    var s := Line(name, version, digest);
    LineHash(name, version, digest);
    LineStrips(name, version, digest);
    LineReadBack(name, version, digest);
    LineIsSafe(name, version, digest);
    assert name[0] in name;
    hide Line, Strip, ParseExact, Occurrence, Normalize, NamePattern, VersionPattern, Requirement;
    assert s[0] != '#' && s[0] != '-';
  }

  // ---------- What lock_requirements writes is accepted ----------

  ghost predicate GoodLock(l: Locked) {
    && NamePattern(l.name) && Normal(l.name) && VersionPattern(l.version) && HexDigest(l.wheel.digest)
    && Normalize(l.name) == l.name
  }

  ghost predicate LocksOne(requirement: string, house: seq<Wheel>, l: Locked) {
    && NormalPin(requirement) == Some(Pin(l.name, l.version))
    && FindWheel(house, l.name, l.version, false) == Ok(l.wheel)
  }

  /** What a successful lock holds: one entry per declared package, with its unique wheel. */
  ghost predicate Locks(packages: seq<string>, house: seq<Wheel>, locked: seq<Locked>) {
    && |locked| == |packages|
    && (forall i :: 0 <= i < |locked| ==> LocksOne(packages[i], house, locked[i]))
    && (forall i, j :: 0 <= i < j < |locked| ==> locked[i].name != locked[j].name)
  }

  lemma LockLast(packages: seq<string>, house: seq<Wheel>) returns (before: seq<Locked>, l: Locked)
    requires packages != [] && LockPackages(packages, house).Ok?
    ensures LockPackages(packages[..|packages| - 1], house) == Ok(before)
    ensures LockPackages(packages, house) == Ok(before + [l])
    ensures LocksOne(packages[|packages| - 1], house, l)
    ensures forall i :: 0 <= i < |before| ==> before[i].name != l.name
  {
    hide FindWheel, NormalPin;
    before := LockPackages(packages[..|packages| - 1], house).value;
    var all := LockPackages(packages, house).value;
    l := all[|before|];
    assert forall i :: 0 <= i < |before| ==> before[i] in before;
  }

  lemma LocksAppend(packages: seq<string>, house: seq<Wheel>, before: seq<Locked>, l: Locked)
    requires packages != [] && Locks(packages[..|packages| - 1], house, before)
    requires LocksOne(packages[|packages| - 1], house, l)
    requires forall i :: 0 <= i < |before| ==> before[i].name != l.name
    ensures Locks(packages, house, before + [l])
  {
    hide LocksOne;
    var all := before + [l];
    forall i | 0 <= i < |all| ensures LocksOne(packages[i], house, all[i]) {
      if i < |before| {
        assert LocksOne(packages[..|packages| - 1][i], house, before[i]);
      }
    }
  }

  lemma {:induction false} LockHolds(packages: seq<string>, house: seq<Wheel>)
    requires LockPackages(packages, house).Ok?
    ensures Locks(packages, house, LockPackages(packages, house).value)
  {
    if packages != [] {
      var before, l := LockLast(packages, house);
      LockHolds(packages[..|packages| - 1], house);
      hide LocksOne, LockPackages, Locks;
      LocksAppend(packages, house, before, l);
    }
  }

  lemma PinIsGood(requirement: string)
    requires NormalPin(requirement).Some?
    ensures var p := NormalPin(requirement).value;
            NamePattern(p.name) && Normal(p.name) && VersionPattern(p.version) && Normalize(p.name) == p.name
  {
    NormalizedNames(ParseExact(requirement).value.name);
  }

  lemma {:induction false} ReadsAll(lines: seq<string>)
    requires forall l :: l in lines ==> ReadLine(l) == Ok([l])
    ensures ReadLines(lines) == Ok(lines)
  {
    hide ReadLine;
    if lines != [] {
      var front, last := lines[..|lines| - 1], lines[|lines| - 1];
      assert lines == front + [last];
      assert forall l :: l in front ==> l in lines;
      assert last in lines;
      ReadsAll(front);
    }
  }

  // The declared packages.

  /** Versions read from requirements that pin the entries of a lock. */
  lemma VersionsOfLock(requirements: seq<string>, locked: seq<Locked>)
    requires forall q :: q in requirements ==> exists l :: l in locked && NormalPin(q) == Some(Pin(l.name, l.version))
    requires forall l, m :: l in locked && m in locked && l.name == m.name ==> l == m
    ensures var v := Versions(requirements);
            && v.Some?
            && (forall n :: n in v.value ==> exists l :: l in locked && l.name == n && l.version == v.value[n])
            && (forall q, l :: q in requirements && l in locked && NormalPin(q) == Some(Pin(l.name, l.version)) ==>
                  l.name in v.value && v.value[l.name] == l.version)
  {
    hide NormalPin;
    assert forall q :: q in requirements ==> NormalPin(q).Some?;
    var v := Versions(requirements).value;
    forall n | n in v ensures exists l :: l in locked && l.name == n && l.version == v[n] {
      var q :| q in requirements && NormalPin(q) == Some(Pin(n, v[n]));
    }
  }

  /** The entries of a lock, as the reader and the checks need them. */
  lemma LockFacts(packages: seq<string>, house: seq<Wheel>, locked: seq<Locked>)
    requires Locks(packages, house, locked)
    requires forall w :: w in house ==> HexDigest(w.digest)
    ensures forall l :: l in locked ==> GoodLock(l)
    ensures forall l, m :: l in locked && m in locked && l.name == m.name ==> l == m
  {
    forall i | 0 <= i < |locked| ensures GoodLock(locked[i]) {
      assert LocksOne(packages[i], house, locked[i]);
      PinIsGood(packages[i]);
      WheelIsInHouse(house, locked[i].name, locked[i].version, false);
    }
    hide GoodLock, LocksOne;
    assert forall i, j :: 0 <= i < |locked| && 0 <= j < |locked| && locked[i].name == locked[j].name ==> i == j;
  }

  lemma WheelIsInHouse(house: seq<Wheel>, name: string, version: string, allowNative: bool)
    requires FindWheel(house, name, version, allowNative).Ok?
    ensures var w := FindWheel(house, name, version, allowNative).value;
            && w in house && IsFor(w, name, version)
            && (forall v :: v in house && IsFor(v, name, version) ==> v == w)
            && (!allowNative ==> forall v :: v in house && IsWheel(v) ==> IsPure(v))
  {
    hide IsFor, IsPure;
    var matches := WheelsFor(house, name, version);
    assert |matches| == 1;
    assert matches[0] in matches;
  }

  ghost predicate DistinctWheels(house: seq<Wheel>) {
    forall i, j :: 0 <= i < j < |house| ==> house[i] != house[j]
  }

  lemma {:induction false} OnlyMatch(house: seq<Wheel>, name: string, version: string, w: Wheel)
    requires DistinctWheels(house)
    requires forall v :: v in house && IsFor(v, name, version) ==> v == w
    ensures WheelsFor(house, name, version) == if w in house && IsFor(w, name, version) then [w] else []
  {
    if house != [] {
      hide IsFor;
      var front, last := house[..|house| - 1], house[|house| - 1];
      assert house == front + [last];
      OnlyMatch(front, name, version, w);
      assert last !in front;
    }
  }

  /** A wheel found in a wheelhouse is found again among any of its wheels that include it. */
  lemma FoundAmongVendored(house: seq<Wheel>, vendored: seq<Wheel>, name: string, version: string, allowNative: bool)
    requires FindWheel(house, name, version, false).Ok?
    requires FindWheel(house, name, version, false).value in vendored
    requires DistinctWheels(vendored) && forall w :: w in vendored ==> w in house
    ensures FindWheel(vendored, name, version, allowNative) == FindWheel(house, name, version, false)
  {
    WheelIsInHouse(house, name, version, false);
    OnlyMatch(vendored, name, version, FindWheel(house, name, version, false).value);
    hide IsFor, IsPure, IsWheel;
  }

  /** The vendored wheels: those of the lock, each once. */
  ghost predicate Vendors(vendored: seq<Wheel>, locked: seq<Locked>) {
    && DistinctWheels(vendored)
    && (forall w :: w in vendored <==> exists l :: l in locked && l.wheel == w)
  }

  lemma LinesAreRead(locked: seq<Locked>)
    requires locked != [] && forall l :: l in locked ==> GoodLock(l)
    ensures ReadLock(LockText(locked)) == Ok(SortLines(Lines(locked)))
  {
    var lines := SortLines(Lines(locked));
    forall line | line in lines ensures ReadLine(line) == Ok([line]) && forall c :: c in line ==> !IsBreak(c) {
      var i :| 0 <= i < |locked| && Lines(locked)[i] == line;
      var l := locked[i];
      assert l in locked && GoodLock(l);
      LineReads(l.name, l.version, l.wheel.digest);
      LineIsSafe(l.name, l.version, l.wheel.digest);
    }
    hide LineOf, GoodLock, ReadLine, IsBreak;
    LinesRoundTrip(lines);
    ReadsAll(lines);
  }

  lemma PackagesPinned(packages: seq<string>, house: seq<Wheel>, locked: seq<Locked>)
    requires Locks(packages, house, locked)
    ensures forall q :: q in packages ==> exists l :: l in locked && NormalPin(q) == Some(Pin(l.name, l.version))
  {
    hide NormalPin, FindWheel;
    forall q | q in packages ensures exists l :: l in locked && NormalPin(q) == Some(Pin(l.name, l.version)) {
      var i :| 0 <= i < |packages| && packages[i] == q;
      assert LocksOne(packages[i], house, locked[i]);
      assert locked[i] in locked;
    }
  }

  lemma LinesPinned(locked: seq<Locked>)
    requires forall l :: l in locked ==> GoodLock(l)
    ensures forall q :: q in Pinned(SortLines(Lines(locked))) ==>
              exists l :: l in locked && NormalPin(q) == Some(Pin(l.name, l.version))
  {
    var lines := SortLines(Lines(locked));
    forall q | q in Pinned(lines) ensures exists l :: l in locked && NormalPin(q) == Some(Pin(l.name, l.version)) {
      var j :| 0 <= j < |lines| && Pinned(lines)[j] == q;
      var l := LockedOfLine(locked, lines[j]);
    }
  }

  lemma PinnedVersions(locked: seq<Locked>)
    requires forall l :: l in locked ==> GoodLock(l)
    requires forall l, m :: l in locked && m in locked && l.name == m.name ==> l == m
    ensures var v := Versions(Pinned(SortLines(Lines(locked))));
            v.Some? && forall l :: l in locked ==> l.name in v.value && v.value[l.name] == l.version
  {
    var pinned := Pinned(SortLines(Lines(locked)));
    LinesPinned(locked);
    EveryNameIsPinned(locked);
    VersionsOfLock(pinned, locked);
    hide NormalPin, GoodLock, SortLines, Lines, Pinned, Versions;
    forall l | l in locked ensures l.name in Versions(pinned).value && Versions(pinned).value[l.name] == l.version {
      var q :| q in pinned && NormalPin(q) == Some(Pin(l.name, l.version));
    }
  }

  lemma DeclaredAccepted(packages: seq<string>, house: seq<Wheel>, locked: seq<Locked>)
    requires Locks(packages, house, locked) && forall w :: w in house ==> HexDigest(w.digest)
    ensures DeclaredAreLocked(packages, SortLines(Lines(locked)))
  {
    LockFacts(packages, house, locked);
    PackagesPinned(packages, house, locked);
    PinnedVersions(locked);
    hide NormalPin, GoodLock, Locks, HexDigest, SortLines, Lines, Pinned;
    VersionsOfLock(packages, locked);
    hide Versions;
  }

  lemma LockedOfLine(locked: seq<Locked>, line: string) returns (l: Locked)
    requires (forall l :: l in locked ==> GoodLock(l)) && line in SortLines(Lines(locked))
    ensures l in locked && line == LineOf(l)
    ensures NormalPin(Requirement(line)) == Some(Pin(l.name, l.version))
    ensures Expects(line) == Some(Expectation(l.name, l.version, l.wheel.digest))
  {
    var i :| 0 <= i < |locked| && Lines(locked)[i] == line;
    l := locked[i];
    assert GoodLock(l);
    LineReadBack(l.name, l.version, l.wheel.digest);
  }

  lemma EveryNameIsPinned(locked: seq<Locked>)
    requires forall l :: l in locked ==> GoodLock(l)
    ensures forall l :: l in locked ==>
              exists q :: q in Pinned(SortLines(Lines(locked))) && NormalPin(q) == Some(Pin(l.name, l.version))
  {
    var lines := SortLines(Lines(locked));
    forall l | l in locked ensures exists q :: q in Pinned(lines) && NormalPin(q) == Some(Pin(l.name, l.version)) {
      var i :| 0 <= i < |locked| && locked[i] == l;
      assert Lines(locked)[i] in lines;
      var j :| 0 <= j < |lines| && lines[j] == LineOf(l);
      LineReadBack(l.name, l.version, l.wheel.digest);
      assert Pinned(lines)[j] in Pinned(lines);
    }
  }

  lemma WheelhouseAccepted(packages: seq<string>, house: seq<Wheel>, locked: seq<Locked>, vendored: seq<Wheel>,
                           allowNative: bool)
    requires Locks(packages, house, locked) && forall w :: w in house ==> HexDigest(w.digest)
    requires Vendors(vendored, locked)
    ensures WheelhouseMatches(vendored, SortLines(Lines(locked)), allowNative)
  {
    var lines := SortLines(Lines(locked));
    LockFacts(packages, house, locked);
    forall line | line in lines ensures Expects(line).Some? && Met(vendored, Expects(line).value, allowNative) {
      var l := LockedOfLine(locked, line);
      LockedIsMet(packages, house, locked, vendored, allowNative, l);
    }
    hide Met, Expects;
  }

  lemma LockedIsMet(packages: seq<string>, house: seq<Wheel>, locked: seq<Locked>, vendored: seq<Wheel>, allowNative: bool,
                    l: Locked)
    requires Locks(packages, house, locked) && Vendors(vendored, locked) && l in locked
    ensures Met(vendored, Expectation(l.name, l.version, l.wheel.digest), allowNative)
  {
    var i :| 0 <= i < |locked| && locked[i] == l;
    assert LocksOne(packages[i], house, locked[i]);
    forall w | w in vendored ensures w in house {
      var j :| 0 <= j < |locked| && locked[j].wheel == w;
      assert LocksOne(packages[j], house, locked[j]);
      WheelIsInHouse(house, locked[j].name, locked[j].version, false);
    }
    hide FindWheel;
    FoundAmongVendored(house, vendored, l.name, l.version, allowNative);
  }

  /** Whatever `lock_requirements` writes is accepted: the reader reads back exactly the lines, every
      declared package is locked at its version, and the freshly vendored wheels match, with or
      without native wheels allowed. */
  lemma LockIsAccepted(packages: seq<string>, house: seq<Wheel>, vendored: seq<Wheel>, allowNative: bool)
    requires Lock(packages, house).Ok?
    requires forall w :: w in house ==> HexDigest(w.digest)
    requires Vendors(vendored, Lock(packages, house).value)
    ensures var locked := Lock(packages, house).value;
            match ReadLock(LockText(locked))
            case Err(_) => false
            case Ok(lines) =>
              && lines == SortLines(Lines(locked))
              && DeclaredAreLocked(packages, lines)
              && WheelhouseMatches(vendored, lines, allowNative)
  {
    var locked := Lock(packages, house).value;
    LockHolds(packages, house);
    LockFacts(packages, house, locked);
    hide GoodLock, Locks, Vendors, HexDigest, ReadLock, DeclaredAreLocked, WheelhouseMatches;
    assert locked != [] by { assert |locked| == |packages| by { LockLength(packages, house, locked); } }
    LinesAreRead(locked);
    DeclaredAccepted(packages, house, locked);
    WheelhouseAccepted(packages, house, locked, vendored, allowNative);
  }

  lemma LockLength(packages: seq<string>, house: seq<Wheel>, locked: seq<Locked>)
    requires Locks(packages, house, locked)
    ensures |locked| == |packages|
  {
  }
}
