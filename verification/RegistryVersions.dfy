/** The registry's version order and the entry it picks. */
module RegistryVersions {
  import opened Prelude
  import opened Text

  // ---------- Versions ----------

  /** A version text accepted by the pattern: three numbers and an optional tail after '-' or '+'. */
  datatype Version = Version(major: string, minor: string, patch: string, tail: Tail)

  datatype Tail = Release | PreRelease(suffix: string) | Build(suffix: string)

  predicate TailChar(c: char) {
    IsDigit(c) || 'A' <= c <= 'Z' || 'a' <= c <= 'z' || c == '.' || c == '-'
  }

  predicate Valid(v: Version) {
    && IsNumber(v.major) && IsNumber(v.minor) && IsNumber(v.patch)
    && (!v.tail.Release? ==> v.tail.suffix != [] && forall c :: c in v.tail.suffix ==> TailChar(c))
  }

  function Core(v: Version): string {
    v.major + "." + v.minor + "." + v.patch
  }

  function Written(v: Version): string {
    match v.tail
    case Release => Core(v)
    case PreRelease(suffix) => Core(v) + "-" + suffix
    case Build(suffix) => Core(v) + "+" + suffix
  }

  /** The sort key, with the release flag as 1 or 0. */
  datatype Key = Key(major: nat, minor: nat, patch: nat, release: nat, suffix: string)

  /** `_semver_sort_key`; None where it raises. */
  function SortKey(version: string): Option<Key> {
    var i := FirstIndex(version, '-');
    var core, suffix := version[..i], if i < |version| then version[i + 1..] else [];
    var parts := Split(core, '.');
    if |parts| != 3 then None
    else
      var major, minor, patch := ParseInt(parts[0]), ParseInt(parts[1]), ParseInt(parts[2]);
      if major.None? || minor.None? || patch.None? then None
      else Some(Key(major.value, minor.value, patch.value, if i == |version| then 1 else 0, suffix))
  }

  /** Python's order on the key tuples. */
  predicate KeyLess(a: Key, b: Key) {
    a.major < b.major || (a.major == b.major && (
    a.minor < b.minor || (a.minor == b.minor && (
    a.patch < b.patch || (a.patch == b.patch && (
    a.release < b.release || (a.release == b.release && TextLess(a.suffix, b.suffix))))))))
  }

  lemma KeyLessTotal(a: Key, b: Key)
    ensures KeyLess(a, b) || a == b || KeyLess(b, a)
    ensures !(KeyLess(a, b) && KeyLess(b, a)) && (a == b ==> !KeyLess(a, b))
  {
    TextLessTotal(a.suffix, b.suffix);
  }

  lemma KeyLessTrans(a: Key, b: Key, c: Key)
    requires KeyLess(a, b) && KeyLess(b, c)
    ensures KeyLess(a, c)
  {
    if TextLess(a.suffix, b.suffix) && TextLess(b.suffix, c.suffix) {
      TextLessTrans(a.suffix, b.suffix, c.suffix);
    }
  }

  lemma NotLessTrans(a: Key, b: Key, c: Key)
    requires !KeyLess(b, a) && !KeyLess(c, b)
    ensures !KeyLess(c, a)
  {
    KeyLessTotal(a, b);
    KeyLessTotal(b, c);
    KeyLessTotal(a, c);
    if KeyLess(a, b) && KeyLess(b, c) { KeyLessTrans(a, b, c); }
  }

  lemma CoreHasNoDash(v: Version)
    requires Valid(v)
    ensures '-' !in Core(v) && '+' !in Core(v)
  {
    assert forall c :: c in v.major || c in v.minor || c in v.patch ==> IsDigit(c);
  }

  lemma CoreSplits(major: string, minor: string, rest: string)
    requires IsNumber(major) && IsNumber(minor)
    ensures Split(major + "." + minor + "." + rest, '.') == [major, minor] + Split(rest, '.')
  {
    assert major + "." + minor + "." + rest == major + ['.'] + (minor + ['.'] + rest);
    SplitJoin(major, '.', minor + ['.'] + rest);
    SplitJoin(minor, '.', rest);
  }

  /** Splitting loses only the separators. */
  lemma {:induction false} SplitKeeps(s: string, c: char, x: char)
    requires x in s && x != c
    ensures exists p :: p in Split(s, c) && x in p
  {
    var i := FirstIndex(s, c);
    if i < |s| && x !in s[..i] {
      assert s == s[..i] + [c] + s[i + 1..];
      SplitKeeps(s[i + 1..], c, x);
      var p :| p in Split(s[i + 1..], c) && x in p;
      assert p in Split(s, c);
    } else if i < |s| {
      assert s[..i] in Split(s, c);
    }
  }

  lemma KeyOfCore(v: Version, suffix: string)
    requires Valid(v)
    ensures SortKey(Core(v)) == Some(Key(Value(v.major), Value(v.minor), Value(v.patch), 1, []))
    ensures SortKey(Core(v) + "-" + suffix) == Some(Key(Value(v.major), Value(v.minor), Value(v.patch), 0, suffix))
  {
    CoreHasNoDash(v);
    CoreSplits(v.major, v.minor, v.patch);
    SplitJoin(v.patch, '.', []);
    FirstIndexOfJoin(Core(v), '-', suffix);
    var text := Core(v) + "-" + suffix;
    assert Core(v)[..|Core(v)|] == Core(v);
    assert text[..|Core(v)|] == Core(v) && text[|Core(v)| + 1..] == suffix;
    hide Core, Split, FirstIndex;
    assert Split(Core(v), '.') == [v.major, v.minor, v.patch];
  }

  lemma KeyedParts(text: string)
    requires SortKey(text).Some?
    ensures forall p :: p in Split(text[..FirstIndex(text, '-')], '.') ==> IsNumber(p)
  {
    hide Split, FirstIndex, Value, IsNumber;
    var parts := Split(text[..FirstIndex(text, '-')], '.');
    forall i | 0 <= i < |parts| ensures IsNumber(parts[i]) {
      assert i == 0 || i == 1 || i == 2;
    }
  }

  lemma PlusHasNoKey(text: string)
    requires '+' in text[..FirstIndex(text, '-')]
    ensures SortKey(text).None?
  {
    var core := text[..FirstIndex(text, '-')];
    SplitKeeps(core, '.', '+');
    hide Split, FirstIndex, SortKey;
    var p :| p in Split(core, '.') && '+' in p;
    assert !IsNumber(p);
    if SortKey(text).Some? {
      KeyedParts(text);
    }
  }

  lemma BuildHasNoKey(v: Version)
    requires Valid(v) && v.tail.Build?
    ensures SortKey(Written(v)).None?
  {
    var text, i := Written(v), FirstIndex(Written(v), '-');
    CoreHasNoDash(v);
    hide Core, FirstIndex, SortKey;
    assert text[|Core(v)|] == '+';
    assert text[..|Core(v)|] == Core(v);
    assert i > |Core(v)|;
    assert text[..i][|Core(v)|] == '+';
    PlusHasNoKey(text);
  }

  /** A version text has a sort key exactly if it has no build tail, and the key is then its three
      numbers, whether it is a release, and its pre-release suffix. */
  lemma KeyOfText(v: Version)
    requires Valid(v)
    ensures v.tail.Build? <==> SortKey(Written(v)).None?
    ensures !v.tail.Build? ==>
              SortKey(Written(v)) == Some(Key(Value(v.major), Value(v.minor), Value(v.patch), if v.tail.Release? then 1 else 0,
                                           if v.tail.Release? then [] else v.tail.suffix))
  {
    hide Core, SortKey;
    match v.tail
    case Release => KeyOfCore(v, []);
    case PreRelease(suffix) => KeyOfCore(v, suffix);
    case Build(suffix) => BuildHasNoKey(v);
  }

  // ---------- Semantic Versioning, section 11 ----------

  /** Identifiers: numbers numerically, a number before anything else, the rest by characters. */
  predicate IdentifierLess(a: string, b: string) {
    if IsNumber(a) && IsNumber(b) then Value(a) < Value(b)
    else if IsNumber(a) then true
    else if IsNumber(b) then false
    else TextLess(a, b)
  }

  predicate IdentifiersLess(a: seq<string>, b: seq<string>) {
    b != [] && (a == [] || IdentifierLess(a[0], b[0]) ||
                (!IdentifierLess(b[0], a[0]) && IdentifiersLess(a[1..], b[1..])))
  }

  predicate SameCore(v: Version, w: Version)
    requires Valid(v) && Valid(w)
  {
    Value(v.major) == Value(w.major) && Value(v.minor) == Value(w.minor) && Value(v.patch) == Value(w.patch)
  }

  /** The precedence of section 11 of Semantic Versioning 2.0.0, for versions without a build tail. */
  predicate Precedes(v: Version, w: Version)
    requires Valid(v) && Valid(w) && !v.tail.Build? && !w.tail.Build?
  {
    if Value(v.major) != Value(w.major) then Value(v.major) < Value(w.major)
    else if Value(v.minor) != Value(w.minor) then Value(v.minor) < Value(w.minor)
    else if Value(v.patch) != Value(w.patch) then Value(v.patch) < Value(w.patch)
    else if v.tail.Release? then false
    else if w.tail.Release? then true
    else IdentifiersLess(Split(v.tail.suffix, '.'), Split(w.tail.suffix, '.'))
  }

  // ---------- Where the key order and the precedence agree ----------

  /** `x` is cut short by a separator where `y` goes on with a hyphen, the one character that sorts
      before the separator. */
  predicate HyphenPast(x: string, more: bool, y: string) {
    more && |x| < |y| && y[..|x|] == x && y[|x|] == '-'
  }

  /** How the texts of two tails compare whose first different identifiers are `x` and `y`; `xMore` and
      `yMore` say whether another identifier follows. */
  predicate IdentifierTextLess(x: string, xMore: bool, y: string, yMore: bool) {
    HyphenPast(y, yMore, x) || (TextLess(x, y) && !HyphenPast(x, xMore, y))
  }

  predicate DottedLess(a: seq<string>, b: seq<string>) {
    if a == [] || b == [] then b != []  && a == []
    else if a[0] == b[0] then DottedLess(a[1..], b[1..])
    else IdentifierTextLess(a[0], |a| > 1, b[0], |b| > 1)
  }

  /** The test of a pair of pre-release tails: at their first different identifiers, two words must not
      be parted by a hyphen; a number must come before a word in the texts as well; two numbers must
      compare alike as texts and as values, and where their values are equal their texts must compare
      as the rest of the tails do. */
  predicate SameOrder(a: seq<string>, b: seq<string>) {
    if a == [] || b == [] then true
    else if a[0] == b[0] then SameOrder(a[1..], b[1..])
    else
      var x, y := a[0], b[0];
      if IsNumber(x) && IsNumber(y) then
        if Value(x) != Value(y) then TextLess(x, y) <==> Value(x) < Value(y)
        else TextLess(x, y) <==> IdentifiersLess(a[1..], b[1..])
      else if IsNumber(x) then TextLess(x, y) && !HyphenPast(x, |a| > 1, y)
      else if IsNumber(y) then TextLess(y, x) && !HyphenPast(y, |b| > 1, x)
      else !HyphenPast(x, |a| > 1, y) && !HyphenPast(y, |b| > 1, x)
  }

  lemma SplitFirst(s: string)
    requires s != []
    ensures s[0] == '.' ==> Split(s, '.') == [[]] + Split(s[1..], '.')
    ensures s[0] != '.' ==> Split(s, '.') == [[s[0]] + Split(s[1..], '.')[0]] + Split(s[1..], '.')[1..]
  {
    var t := s[1..];
    var i := FirstIndex(t, '.');
    if s[0] != '.' {
      assert FirstIndex(s, '.') == i + 1;
      assert s[..i + 1] == [s[0]] + t[..i];
      if i < |t| {
        assert s[i + 2..] == t[i + 1..];
      } else {
        assert s == [s[0]] + t;
      }
    }
  }

  lemma SameFirstCharacter(c: char, x: string, xMore: bool, y: string, yMore: bool)
    ensures IdentifierTextLess([c] + x, xMore, [c] + y, yMore) <==> IdentifierTextLess(x, xMore, y, yMore)
    ensures [c] + x == [c] + y <==> x == y
  {
    assert ([c] + x)[1..] == x && ([c] + y)[1..] == y;
    HyphenCons(c, x, xMore, y);
    HyphenCons(c, y, yMore, x);
    hide HyphenPast;
  }

  lemma HyphenCons(c: char, x: string, more: bool, y: string)
    ensures HyphenPast([c] + x, more, [c] + y) <==> HyphenPast(x, more, y)
  {
    if |x| < |y| {
      assert ([c] + y)[..|x| + 1] == [c] + y[..|x|];
      assert ([c] + y[..|x|])[1..] == y[..|x|] && ([c] + x)[1..] == x;
    }
  }

  lemma SameFirst(c: char, x: seq<string>, y: seq<string>)
    requires x != [] && y != []
    ensures DottedLess([[c] + x[0]] + x[1..], [[c] + y[0]] + y[1..]) <==> DottedLess(x, y)
    ensures DottedLess([[]] + x, [[]] + y) <==> DottedLess(x, y)
  {
    var p, q := [[c] + x[0]] + x[1..], [[c] + y[0]] + y[1..];
    assert p[1..] == x[1..] && q[1..] == y[1..];
    assert ([[]] + x)[1..] == x && ([[]] + y)[1..] == y;
    SameFirstCharacter(c, x[0], |x| > 1, y[0], |y| > 1);
    hide IdentifierTextLess;
  }

  lemma OneIsEmpty(a: string, b: string)
    requires a == [] || b == []
    ensures TextLess(a, b) <==> DottedLess(Split(a, '.'), Split(b, '.'))
  {
    assert Split([], '.') == [[]];
    if a != [] { SplitFirst(a); }
    if b != [] { SplitFirst(b); }
    hide Split;
  }

  lemma CutAtOnce(y: string, more: bool)
    requires y != []
    ensures IdentifierTextLess([], true, y, more) <==> y[0] != '-'
    ensures IdentifierTextLess(y, more, [], true) <==> y[0] == '-'
  {
    assert y[..0] == [];
  }

  lemma FirstCharacters(x: string, xMore: bool, y: string, yMore: bool)
    requires x != [] && y != [] && x[0] != y[0]
    ensures IdentifierTextLess(x, xMore, y, yMore) <==> x[0] < y[0]
  {
    assert |x| < |y| ==> y[..|x|][0] == y[0];
    assert |y| < |x| ==> x[..|y|][0] == x[0];
  }

  lemma FirstDiffers(a: string, b: string)
    requires a != [] && b != [] && a[0] != b[0] && TailChar(a[0]) && TailChar(b[0])
    ensures TextLess(a, b) <==> DottedLess(Split(a, '.'), Split(b, '.'))
  {
    SplitFirst(a);
    SplitFirst(b);
    var x, y := Split(a, '.'), Split(b, '.');
    hide Split, IdentifierTextLess;
    assert x[0] != y[0] by {
      assert x[0] == [] || x[0][0] == a[0];
      assert y[0] == [] || y[0][0] == b[0];
    }
    if a[0] == '.' {
      CutAtOnce(y[0], |y| > 1);
    } else if b[0] == '.' {
      CutAtOnce(x[0], |x| > 1);
    } else {
      FirstCharacters(x[0], |x| > 1, y[0], |y| > 1);
    }
  }

  /** The text order of two tails, read off their identifiers. */
  lemma {:induction false} TextIsDotted(a: string, b: string)
    requires forall i :: 0 <= i < |a| ==> TailChar(a[i])
    requires forall i :: 0 <= i < |b| ==> TailChar(b[i])
    ensures TextLess(a, b) <==> DottedLess(Split(a, '.'), Split(b, '.'))
    decreases |a| + |b|
  {
    if a == [] || b == [] {
      OneIsEmpty(a, b);
    } else if a[0] == b[0] {
      SplitFirst(a);
      SplitFirst(b);
      TextIsDotted(a[1..], b[1..]);
      hide Split, DottedLess;
      SameFirst(a[0], Split(a[1..], '.'), Split(b[1..], '.'));
    } else {
      FirstDiffers(a, b);
    }
  }

  /** A number is not cut short by a hyphen, nor by a word. */
  lemma NumberFacts(x: string, more: bool, y: string)
    requires IsNumber(y)
    ensures !HyphenPast(x, more, y)
  {
    assert forall i :: 0 <= i < |y| ==> y[i] in y;
  }

  lemma HyphenIsLess(x: string, more: bool, y: string)
    ensures HyphenPast(x, more, y) ==> TextLess(x, y)
  {
    if |x| < |y| {
      PrefixIsLess(x, y);
    }
  }

  lemma {:induction false} PrefixIsLess(x: string, y: string)
    requires |x| < |y|
    ensures y[..|x|] == x ==> TextLess(x, y)
  {
    if x != [] && y[..|x|] == x {
      assert y[0] == y[..|x|][0] == x[0];
      assert y[1..][..|x| - 1] == y[..|x|][1..] == x[1..];
      PrefixIsLess(x[1..], y[1..]);
    }
  }

  /** At the first different identifiers. */
  lemma DifferentIdentifiers(a: seq<string>, b: seq<string>)
    requires a != [] && b != [] && a[0] != b[0]
    ensures SameOrder(a, b) <==> (DottedLess(a, b) <==> IdentifiersLess(a, b))
  {
    var x, y := a[0], b[0];
    TextLessTotal(x, y);
    HyphenIsLess(x, |a| > 1, y);
    HyphenIsLess(y, |b| > 1, x);
    if IsNumber(x) { NumberFacts(y, |b| > 1, x); }
    if IsNumber(y) { NumberFacts(x, |a| > 1, y); }
    hide HyphenPast, TextLess, Value, IsNumber;
  }

  lemma {:induction false} SameOrderIff(a: seq<string>, b: seq<string>)
    ensures SameOrder(a, b) <==> (DottedLess(a, b) <==> IdentifiersLess(a, b))
  {
    if a != [] && b != [] {
      if a[0] == b[0] {
        TextLessTotal(a[0], b[0]);
        SameOrderIff(a[1..], b[1..]);
        hide IsNumber, TextLess, Value;
      } else {
        DifferentIdentifiers(a, b);
      }
    }
  }

  /** Whether the key order of two versions is their precedence: always if the core numbers differ or
      either version is a release, and otherwise by the test of the tails. */
  predicate OrdersAgree(v: Version, w: Version)
    requires Valid(v) && Valid(w)
  {
    !SameCore(v, w) || !v.tail.PreRelease? || !w.tail.PreRelease? ||
    SameOrder(Split(v.tail.suffix, '.'), Split(w.tail.suffix, '.'))
  }

  /** The key order of two versions is the precedence of section 11 of Semantic Versioning 2.0.0
      exactly if `OrdersAgree` says so. */
  lemma KeyOrderIsPrecedenceIff(v: Version, w: Version)
    requires Valid(v) && Valid(w) && !v.tail.Build? && !w.tail.Build?
    ensures SortKey(Written(v)).Some? && SortKey(Written(w)).Some?
    ensures (KeyLess(SortKey(Written(v)).value, SortKey(Written(w)).value) <==> Precedes(v, w)) <==> OrdersAgree(v, w)
  {
    hide Written, SortKey, Split, TextLess, IdentifiersLess, SameOrder, Value, DottedLess;
    KeyOfText(v);
    KeyOfText(w);
    TextLessTotal([], []);
    if v.tail.PreRelease? && w.tail.PreRelease? {
      assert forall i :: 0 <= i < |v.tail.suffix| ==> TailChar(v.tail.suffix[i]);
      assert forall i :: 0 <= i < |w.tail.suffix| ==> TailChar(w.tail.suffix[i]);
      TextIsDotted(v.tail.suffix, w.tail.suffix);
      SameOrderIff(Split(v.tail.suffix, '.'), Split(w.tail.suffix, '.'));
    }
  }

  /** A pre-release tail without hyphens whose identifiers are none of them numbers. */
  predicate Wordy(suffix: string) {
    '-' !in suffix && forall id :: id in Split(suffix, '.') ==> !IsNumber(id)
  }

  lemma {:induction false} WordsSameOrder(a: seq<string>, b: seq<string>)
    requires forall id :: id in a || id in b ==> !IsNumber(id) && '-' !in id
    ensures SameOrder(a, b)
  {
    if a != [] && b != [] {
      assert a[0] in a && b[0] in b;
      if a[0] == b[0] {
        WordsSameOrder(a[1..], b[1..]);
      }
    }
  }

  lemma {:induction false} SplitWithin(s: string, c: char)
    ensures forall p, x :: p in Split(s, c) && x in p ==> x in s
  {
    var i := FirstIndex(s, c);
    if i < |s| {
      SplitWithin(s[i + 1..], c);
      assert Split(s, c) == [s[..i]] + Split(s[i + 1..], c);
    }
  }

  /** So it is the precedence whenever the core numbers differ, either version is a release, or both
      pre-release tails are made of words. */
  lemma KeyOrderIsPrecedence(v: Version, w: Version)
    requires Valid(v) && Valid(w) && !v.tail.Build? && !w.tail.Build?
    requires !SameCore(v, w) || v.tail.Release? || w.tail.Release? || (Wordy(v.tail.suffix) && Wordy(w.tail.suffix))
    ensures SortKey(Written(v)).Some? && SortKey(Written(w)).Some?
    ensures KeyLess(SortKey(Written(v)).value, SortKey(Written(w)).value) <==> Precedes(v, w)
  {
    hide Written, SortKey, Split, IdentifiersLess, SameOrder, Value, KeyLess, Precedes;
    KeyOrderIsPrecedenceIff(v, w);
    if SameCore(v, w) && v.tail.PreRelease? && w.tail.PreRelease? {
      SplitWithin(v.tail.suffix, '.');
      SplitWithin(w.tail.suffix, '.');
      WordsSameOrder(Split(v.tail.suffix, '.'), Split(w.tail.suffix, '.'));
    }
  }

  function PreReleaseOf(suffix: string): Version {
    Version("1", "0", "0", PreRelease(suffix))
  }

  /** Three kinds of disagreement: 1.0.0-10 sorts before 1.0.0-2, 1.0.0-a-b before 1.0.0-a.b, and
      1.0.0-01 before 1.0.0-1, which it does not precede. */
  lemma OrdersThatDiffer()
    ensures !OrdersAgree(PreReleaseOf("10"), PreReleaseOf("2"))
    ensures !OrdersAgree(PreReleaseOf("a-b"), PreReleaseOf("a.b"))
    ensures !OrdersAgree(PreReleaseOf("01"), PreReleaseOf("1"))
  {
    SmallNumbers();
    SplitJoin("10", '.', []);
    SplitJoin("2", '.', []);
    SplitJoin("01", '.', []);
    SplitJoin("1", '.', []);
    hide Split, Value;
    assert TextLess("10", "2") && TextLess("01", "1");
    assert !OrdersAgree(PreReleaseOf("10"), PreReleaseOf("2"));
    assert !OrdersAgree(PreReleaseOf("01"), PreReleaseOf("1"));
    HyphenBeforeDot();
  }

  lemma HyphenBeforeDot()
    ensures !OrdersAgree(PreReleaseOf("a-b"), PreReleaseOf("a.b"))
  {
    SplitJoin("a-b", '.', []);
    assert "a.b" == "a" + ['.'] + "b";
    SplitJoin("a", '.', "b");
    SplitJoin("b", '.', []);
    hide Split;
    assert "a-b"[..1] == "a" && !IsDigit('a');
    assert 'a' in "a" && 'a' in "a-b";
    assert HyphenPast("a", true, "a-b");
  }

  /** And numbered pre-releases that agree: rc.1 precedes rc.2 in both orders. */
  lemma NumberedMayAgree()
    ensures OrdersAgree(PreReleaseOf("rc.1"), PreReleaseOf("rc.2"))
  {
    SmallNumbers();
    assert "rc.1" == "rc" + ['.'] + "1" && "rc.2" == "rc" + ['.'] + "2";
    SplitJoin("rc", '.', "1");
    SplitJoin("rc", '.', "2");
    SplitJoin("1", '.', []);
    SplitJoin("2", '.', []);
    hide Split, Value;
    assert ["rc", "1"][1..] == ["1"] && ["rc", "2"][1..] == ["2"];
  }

  lemma SmallNumbers()
    ensures IsNumber("10") && IsNumber("2") && IsNumber("1") && IsNumber("01")
    ensures Value("10") == 10 && Value("2") == 2 && Value("1") == 1 && Value("01") == 1
  {
    assert Value("1") == 10 * Value([]) + 1;
    assert "10"[..1] == "1";
    assert "01"[..1] == "0";
    assert Value("0") == 0;
  }

  // ---------- The entry the index gives ----------

  datatype Entry = Entry(name: string, version: string, sha256: string)

  datatype FindError = NotInRegistry | NoSortKey

  function Matching(entries: seq<Entry>, name: string, version: Option<string>): (r: seq<Entry>)
    ensures forall e :: e in r <==> e in entries && e.name == name && (version.Some? ==> e.version == version.value)
  {
    if entries == [] then []
    else
      var rest := Matching(entries[1..], name, version);
      if entries[0].name == name && (version.Some? ==> entries[0].version == version.value)
      then [entries[0]] + rest else rest
  }

  predicate Keyed(entries: seq<Entry>) {
    forall e :: e in entries ==> SortKey(e.version).Some?
  }

  function KeyOf(e: Entry): Key
    requires SortKey(e.version).Some?
  {
    SortKey(e.version).value
  }

  /** A stable sort, largest key first. */
  function Sorted(entries: seq<Entry>): (r: seq<Entry>)
    requires Keyed(entries)
    ensures |r| == |entries| && forall e :: e in r <==> e in entries
  {
    if entries == [] then [] else Insert(entries[0], Sorted(entries[1..]))
  }

  /** Before everything whose key is not larger. */
  function Insert(e: Entry, sorted: seq<Entry>): (r: seq<Entry>)
    requires SortKey(e.version).Some? && Keyed(sorted)
    ensures |r| == |sorted| + 1 && forall x :: x in r <==> x == e || x in sorted
  {
    if sorted == [] || !KeyLess(KeyOf(e), KeyOf(sorted[0])) then [e] + sorted
    else [sorted[0]] + Insert(e, sorted[1..])
  }

  function Find(entries: seq<Entry>, name: string, version: Option<string>): Result<Entry, FindError> {
    var matches := Matching(entries, name, version);
    if matches == [] then Err(NotInRegistry)
    else if !Keyed(matches) then Err(NoSortKey)
    else Ok(Sorted(matches)[0])
  }

  /** Entry `k` has the largest key, and is the first that has. */
  ghost predicate FirstNewest(entries: seq<Entry>, k: nat)
    requires Keyed(entries)
  {
    && k < |entries|
    && (forall j :: 0 <= j < |entries| ==> !KeyLess(KeyOf(entries[k]), KeyOf(entries[j])))
    && (forall j :: 0 <= j < k ==> KeyLess(KeyOf(entries[j]), KeyOf(entries[k])))
  }

  lemma NewestOfRest(entries: seq<Entry>, r: nat)
    requires Keyed(entries) && entries != [] && FirstNewest(entries[1..], r)
    ensures KeyLess(KeyOf(entries[0]), KeyOf(entries[r + 1])) ==> FirstNewest(entries, r + 1)
    ensures !KeyLess(KeyOf(entries[0]), KeyOf(entries[r + 1])) ==> FirstNewest(entries, 0)
  {
    var rest, first, best := entries[1..], KeyOf(entries[0]), KeyOf(entries[r + 1]);
    KeyLessTotal(first, first);
    KeyLessTotal(first, best);
    forall j | 0 <= j < |entries|
      ensures !KeyLess(first, best) ==> !KeyLess(first, KeyOf(entries[j]))
      ensures KeyLess(first, best) ==> !KeyLess(best, KeyOf(entries[j])) && (j < r + 1 ==> KeyLess(KeyOf(entries[j]), best))
    {
      if j > 0 {
        assert entries[j] == rest[j - 1];
        if !KeyLess(first, best) { NotLessTrans(KeyOf(entries[j]), best, first); }
      }
    }
  }

  lemma {:induction false} SortedHead(entries: seq<Entry>) returns (k: nat)
    requires Keyed(entries) && entries != []
    ensures FirstNewest(entries, k) && Sorted(entries)[0] == entries[k]
  {
    var rest := entries[1..];
    if rest == [] {
      KeyLessTotal(KeyOf(entries[0]), KeyOf(entries[0]));
      k := 0;
    } else {
      var r := SortedHead(rest);
      NewestOfRest(entries, r);
      hide FirstNewest, KeyLess;
      k := if KeyLess(KeyOf(entries[0]), KeyOf(entries[r + 1])) then r + 1 else 0;
    }
  }

  /** `find` fails only without a match or on a match without a key; otherwise it gives the first of
      the matching entries with the largest key. */
  lemma FindGivesTheNewest(entries: seq<Entry>, name: string, version: Option<string>)
    ensures var matches := Matching(entries, name, version);
            match Find(entries, name, version)
            case Err(NotInRegistry) => matches == []
            case Err(NoSortKey) => exists e :: e in matches && SortKey(e.version).None?
            case Ok(entry) =>
              && Keyed(matches)
              && exists k: nat :: FirstNewest(matches, k) && entry == matches[k]
  {
    var matches := Matching(entries, name, version);
    if matches != [] && Keyed(matches) {
      var k := SortedHead(matches);
    }
  }
}
