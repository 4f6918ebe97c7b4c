/**
 * The version dispatch of the graphql integration (ddtrace/contrib/graphql/patch.py):
 * the installed graphql-core version string is parsed into an integer tuple
 * when the module is imported, and `patch()` uses Python's tuple ordering on
 * it to decide whether to patch at all and which functions of which
 * graphql-core modules to wrap.
 */
module GraphqlPatch {
  import opened Wrappers
  import opened Sequences
  import GraphqlText

  // ---- str.split and str.join with a one-character separator ----

  /** `s.split(sep)`: the pieces between the separators, in order; there is always at least one. */
  function Split(s: string, sep: char): (parts: seq<string>)
    ensures |parts| >= 1
    ensures forall i :: 0 <= i < |parts| ==> sep !in parts[i]
    decreases |s|
  {
    if s == [] then [[]]
    else
      var rest := Split(s[1..], sep);
      if s[0] == sep then [[]] + rest
      else [[s[0]] + rest[0]] + rest[1..]
  }

  /** `sep.join(parts)`. */
  function Join(parts: seq<string>, sep: char): string {
    if parts == [] then []
    else if |parts| == 1 then parts[0]
    else parts[0] + [sep] + Join(parts[1..], sep)
  }

  /** Joining the pieces of a split gives back the text. */
  lemma {:induction false} JoinSplit(s: string, sep: char)
    ensures Join(Split(s, sep), sep) == s
    decreases |s|
  {
    if s != [] {
      var rest := Split(s[1..], sep);
      JoinSplit(s[1..], sep);
      if s[0] == sep {
        assert Split(s, sep) == [[]] + rest;
        JoinFirstEmpty(rest, sep);
      } else {
        assert Split(s, sep) == [[s[0]] + rest[0]] + rest[1..];
        JoinGrowFirst(s[0], rest, sep);
      }
      assert [s[0]] + s[1..] == s;
    }
  }

  /** Splitting joined pieces that hold no separator gives back the pieces. */
  lemma {:induction false} SplitJoin(parts: seq<string>, sep: char)
    requires |parts| >= 1
    requires forall i :: 0 <= i < |parts| ==> sep !in parts[i]
    ensures Split(Join(parts, sep), sep) == parts
    decreases |parts|
  {
    if |parts| == 1 {
      SplitNoSep(parts[0], sep);
    } else {
      var tail := parts[1..];
      SplitJoin(tail, sep);
      SplitAfterPiece(parts[0], Join(tail, sep), sep);
      assert [parts[0]] + tail == parts;
    }
  }

  lemma {:induction false} JoinFirstEmpty(rest: seq<string>, sep: char)
    requires |rest| >= 1
    ensures Join([[]] + rest, sep) == [sep] + Join(rest, sep)
  {
    var all := [[]] + rest;
    assert all[0] == [] && all[1..] == rest;
  }

  lemma {:induction false} JoinGrowFirst(c: char, rest: seq<string>, sep: char)
    requires |rest| >= 1
    ensures Join([[c] + rest[0]] + rest[1..], sep) == [c] + Join(rest, sep)
  {
    var all := [[c] + rest[0]] + rest[1..];
    assert all[0] == [c] + rest[0] && all[1..] == rest[1..];
    if |rest| > 1 {
      ConcatAssoc4([c], rest[0], [sep], Join(rest[1..], sep));
    }
  }

  lemma {:induction false} SplitNoSep(p: string, sep: char)
    requires sep !in p
    ensures Split(p, sep) == [p]
    decreases |p|
  {
    if p != [] {
      assert p[0] in p;
      assert forall c | c in p[1..] :: c in p;
      SplitNoSep(p[1..], sep);
      assert [p[0]] + p[1..] == p;
    }
  }

  /** A piece without separator, a separator and more text splits into the piece and the rest's pieces. */
  lemma {:induction false} SplitAfterPiece(p: string, s: string, sep: char)
    requires sep !in p
    ensures Split(p + [sep] + s, sep) == [p] + Split(s, sep)
    decreases |p|
  {
    var all := p + [sep] + s;
    if p == [] {
      assert all == [sep] + s;
      assert all[1..] == s;
    } else {
      assert p[0] in p;
      assert forall c | c in p[1..] :: c in p;
      assert all[0] == p[0] && all[1..] == p[1..] + [sep] + s;
      SplitAfterPiece(p[1..], s, sep);
      var rest := Split(all[1..], sep);
      assert rest[0] == p[1..] && rest[1..] == Split(s, sep);
      assert [p[0]] + p[1..] == p;
    }
  }

  // ---- int() on one piece of the version string ----

  predicate IsDigit(c: char) {
    '0' <= c <= '9'
  }

  predicate AllDigits(ds: string) {
    forall i :: 0 <= i < |ds| ==> IsDigit(ds[i])
  }

  /** The value of a string of decimal digits, most significant first. */
  function DigitsValue(ds: string): nat
    requires AllDigits(ds)
    decreases |ds|
  {
    if ds == [] then 0
    else DigitsValue(ds[..|ds| - 1]) * 10 + (ds[|ds| - 1] as int - '0' as int)
  }

  const InvalidLiteral: string := "invalid literal for int() with base 10"

  /**
   * `int(s)` for a decimal literal: surrounding whitespace, an optional sign,
   * then one or more ASCII digits; anything else raises ValueError.
   */
  function ParseInt(s: string): (r: Result<int>)
    ensures r.Err? ==> r.error == ValueError(InvalidLiteral)
    ensures GraphqlText.Strip(s) == [] ==> r.Err?
  {
    ParseLiteral(GraphqlText.Strip(s))
  }

  /** An optional sign and one or more digits, with the whitespace already stripped. */
  function ParseLiteral(t: string): (r: Result<int>)
    ensures r.Err? ==> r.error == ValueError(InvalidLiteral)
    ensures t == [] || t == "+" || t == "-" ==> r.Err?
    ensures r.Ok? && t[0] != '-' ==> r.value >= 0
  {
    var signed := t != [] && (t[0] == '+' || t[0] == '-');
    var digits := if signed then t[1..] else t;
    if digits != [] && AllDigits(digits) then
      var n: int := DigitsValue(digits);
      Ok(if signed && t[0] == '-' then -n else n)
    else
      Err(ValueError(InvalidLiteral))
  }

  function DigitChar(d: nat): (c: char)
    requires d < 10
    ensures IsDigit(c) && c as int - '0' as int == d
  {
    ('0' as int + d) as char
  }

  /** `str(n)` for a natural number. */
  function NatToString(n: nat): (s: string)
    ensures s != [] && AllDigits(s)
    decreases n
  {
    if n < 10 then [DigitChar(n)] else NatToString(n / 10) + [DigitChar(n % 10)]
  }

  /** `str(i)` for an integer. */
  function IntToString(i: int): (s: string)
    ensures s != []
  {
    if i < 0 then "-" + NatToString(-i) else NatToString(i)
  }

  lemma {:induction false} DigitsOfNatToString(n: nat)
    ensures DigitsValue(NatToString(n)) == n
    decreases n
  {
    if n >= 10 {
      var s := NatToString(n);
      assert s[..|s| - 1] == NatToString(n / 10);
      DigitsOfNatToString(n / 10);
    }
  }

  /** `int(str(i)) == i`: every integer's decimal form parses back to it. */
  lemma {:induction false} ParseIntToString(i: int)
    ensures ParseInt(IntToString(i)) == Ok(i)
  {
    if i < 0 {
      var n: nat := -i;
      assert IntToString(i) == "-" + NatToString(n);
      ParseNegative(n);
    } else {
      var n: nat := i;
      assert IntToString(i) == NatToString(n);
      ParseNatural(n);
    }
  }

  lemma {:induction false} ParseNatural(n: nat)
    ensures ParseInt(NatToString(n)) == Ok(n)
  {
    var ds := NatToString(n);
    ParseDigits(ds);
    DigitsOfNatToString(n);
  }

  lemma {:induction false} ParseNegative(n: nat)
    requires n > 0
    ensures ParseInt("-" + NatToString(n)) == Ok(-(n as int))
  {
    var ds := NatToString(n);
    var s := "-" + ds;
    assert s[|s| - 1] == ds[|ds| - 1] && s[1..] == ds;
    NoSpaceInNumber(s);
    DigitsOfNatToString(n);
  }

  /** A bare string of digits parses to its value. */
  lemma {:induction false} ParseDigits(ds: string)
    requires ds != [] && AllDigits(ds)
    ensures ParseInt(ds) == Ok(DigitsValue(ds))
  {
    NoSpaceInNumber(ds);
    assert ParseLiteral(ds) == Ok(DigitsValue(ds)) by {
      assert IsDigit(ds[0]);
    }
  }

  /** A number's decimal form has no whitespace at its ends, so int() sees it whole. */
  lemma {:induction false} NoSpaceInNumber(s: string)
    requires s != [] && (IsDigit(s[0]) || s[0] == '-') && IsDigit(s[|s| - 1])
    ensures GraphqlText.Strip(s) == s
  {
    assert !GraphqlText.IsSpace(s[0]);
    assert !GraphqlText.IsSpace(s[|s| - 1]);
    assert GraphqlText.TrimStart(s) == s;
    assert GraphqlText.TrimEnd(s) == s;
  }

  // ---- the version tuple (patch.py line 23) ----

  /**
   * `[f(p) for p in parts]` for an `f` that may raise: the results in order,
   * or the exception of the first piece that raises.
   */
  function TryAll<T>(f: string -> Result<T>, parts: seq<string>): (r: Result<seq<T>>)
    ensures r.Ok? ==> |r.value| == |parts|
    decreases |parts|
  {
    if parts == [] then Ok([])
    else
      match f(parts[0])
      case Err(e) => Err(e)
      case Ok(x) =>
        match TryAll(f, parts[1..])
        case Err(e) => Err(e)
        case Ok(xs) => Ok([x] + xs)
  }

  /**
   * The list has a value exactly when every piece has one, and then holds
   * each piece's value in order; otherwise it raises what the first failing
   * piece raises.
   */
  lemma {:induction false} TryAllEach<T>(f: string -> Result<T>, parts: seq<string>)
    ensures TryAll(f, parts).Ok? <==> forall i :: 0 <= i < |parts| ==> f(parts[i]).Ok?
    ensures TryAll(f, parts).Ok? ==> forall i :: 0 <= i < |parts| ==> f(parts[i]) == Ok(TryAll(f, parts).value[i])
    ensures TryAll(f, parts).Err? ==>
      exists i :: 0 <= i < |parts| && f(parts[i]) == Err(TryAll(f, parts).error)
              && forall j :: 0 <= j < i ==> f(parts[j]).Ok?
    decreases |parts|
  {
    if parts != [] {
      var tail := parts[1..];
      TryAllEach(f, tail);
      assert forall i :: 1 <= i < |parts| ==> parts[i] == tail[i - 1];
      var r := TryAll(f, parts);
      if r.Ok? {
        var rest := TryAll(f, tail);
        assert r.value == [f(parts[0]).value] + rest.value;
      } else if f(parts[0]).Ok? {
        var i :| 0 <= i < |tail| && f(tail[i]) == Err(r.error) && forall j :: 0 <= j < i ==> f(tail[j]).Ok?;
        assert f(parts[i + 1]) == Err(r.error);
        assert forall j :: 0 <= j < i + 1 ==> f(parts[j]).Ok? by {
          forall j | 0 <= j < i + 1 ensures f(parts[j]).Ok? {
            if j > 0 { assert parts[j] == tail[j - 1]; }
          }
        }
      } else {
        assert f(parts[0]) == Err(r.error);
      }
    }
  }

  /**
   * `tuple([int(i) for i in version_str.split(".")])`: one integer per
   * dot-separated piece, or the ValueError of the first piece that is not an
   * integer literal.
   */
  function ParseVersion(versionStr: string): (r: Result<seq<int>>)
    ensures r.Ok? ==> |r.value| == |Split(versionStr, '.')| >= 1
    ensures r.Err? ==> r.error == ValueError(InvalidLiteral)
  {
    TryAllEach(ParseInt, Split(versionStr, '.'));
    TryAll(ParseInt, Split(versionStr, '.'))
  }

  /**
   * `getattr(graphql, "__version__", "0.0.0")`: the module's version string,
   * or a default that parses to (0, 0, 0).
   */
  function VersionString(versionAttr: Option<string>): (s: string)
    ensures versionAttr.Some? ==> s == versionAttr.value
    ensures versionAttr.None? ==> ParseVersion(s) == Ok([0, 0, 0])
  {
    match versionAttr
    case Some(v) => v
    case None =>
      SplitDefault();
      ParseZeros();
      "0.0.0"
  }

  /** The dotted decimal form of a version tuple. */
  function RenderVersion(v: seq<int>): (s: string)
    ensures v != [] ==> s != []
  {
    Join(RenderParts(v), '.')
  }

  function RenderParts(v: seq<int>): (parts: seq<string>)
    ensures |parts| == |v|
    ensures forall i :: 0 <= i < |v| ==> parts[i] == IntToString(v[i])
  {
    if v == [] then [] else [IntToString(v[0])] + RenderParts(v[1..])
  }

  /** Parsing a rendered version gives back the tuple. */
  lemma {:induction false} ParseRenderedVersion(v: seq<int>)
    requires v != []
    ensures ParseVersion(RenderVersion(v)) == Ok(v)
  {
    var parts := RenderParts(v);
    forall i | 0 <= i < |parts|
      ensures '.' !in parts[i]
    {
      NoDotInNumber(v[i]);
    }
    SplitJoin(parts, '.');
    TryAllEach(ParseInt, parts);
    forall i | 0 <= i < |parts|
      ensures ParseInt(parts[i]) == Ok(v[i])
    {
      ParseIntToString(v[i]);
    }
    var r := TryAll(ParseInt, parts);
    assert r.Ok?;
    assert r.value == v;
  }

  lemma {:induction false} NoDotInNumber(i: int)
    ensures '.' !in IntToString(i)
  {
    var n: nat := if i < 0 then -i else i;
    var ds := NatToString(n);
    assert forall k :: 0 <= k < |ds| ==> ds[k] != '.';
    if i < 0 {
      var s := IntToString(i);
      assert forall k :: 1 <= k < |s| ==> s[k] == ds[k - 1];
    }
  }

  lemma {:induction false} SplitDefault()
    ensures Split("0.0.0", '.') == ["0", "0", "0"]
  {
    assert "0.0.0" == "0" + ['.'] + "0" + ['.'] + "0";
    SplitThree("0", "0", "0", '.');
  }

  lemma {:induction false} ParseZeros()
    ensures TryAll(ParseInt, ["0", "0", "0"]) == Ok([0, 0, 0])
  {
    assert ParseInt("0") == Ok(0) by {
      ParseDigits("0");
      assert DigitsValue("0") == 0 by {
        assert "0"[..0] == [];
      }
    }
    ThreePiecesParse(ParseInt, "0", "0", "0");
  }

  /** When all three pieces have a value, the list holds the three values. */
  lemma {:induction false} ThreePiecesParse<T>(f: string -> Result<T>, a: string, b: string, c: string)
    requires f(a).Ok? && f(b).Ok? && f(c).Ok?
    ensures TryAll(f, [a, b, c]) == Ok([f(a).value, f(b).value, f(c).value])
  {
    assert TryAll(f, [c]) == Ok([f(c).value]) by {
      assert [c][1..] == [];
      assert [f(c).value] + [] == [f(c).value];
    }
    assert TryAll(f, [b, c]) == Ok([f(b).value, f(c).value]) by {
      assert [b, c][1..] == [c];
      assert [f(b).value] + [f(c).value] == [f(b).value, f(c).value];
    }
    assert [a, b, c][1..] == [b, c];
    assert [f(a).value] + [f(b).value, f(c).value] == [f(a).value, f(b).value, f(c).value];
  }

  /** A pre-release version string such as "3.2.0rc1" has a piece that is not an integer, so parsing it raises. */
  lemma {:induction false} PreReleaseRaises()
    ensures ParseVersion("3.2.0rc1") == Err(ValueError(InvalidLiteral))
  {
    assert Split("3.2.0rc1", '.') == ["3", "2", "0rc1"] by {
      assert "3.2.0rc1" == "3" + ['.'] + "2" + ['.'] + "0rc1";
      SplitThree("3", "2", "0rc1", '.');
    }
    ParsePreReleasePieces();
  }

  /** Three pieces without the separator, joined by it, split back into those pieces. */
  lemma {:induction false} SplitThree(a: string, b: string, c: string, sep: char)
    requires sep !in a && sep !in b && sep !in c
    ensures Split(a + [sep] + b + [sep] + c, sep) == [a, b, c]
  {
    SplitNoSep(c, sep);
    SplitAfterPiece(b, c, sep);
    SplitAfterPiece(a, b + [sep] + c, sep);
    assert a + [sep] + b + [sep] + c == a + [sep] + (b + [sep] + c);
  }

  lemma {:induction false} ParsePreReleasePieces()
    ensures TryAll(ParseInt, ["3", "2", "0rc1"]) == Err(ValueError(InvalidLiteral))
  {
    ThirdPieceSuffixed("3", "2", "0rc1");
  }

  /** Two one-digit pieces and then a digit with a suffix: the list raises ValueError. */
  lemma {:induction false} ThirdPieceSuffixed(a: string, b: string, c: string)
    requires |a| == 1 && IsDigit(a[0]) && |b| == 1 && IsDigit(b[0])
    requires |c| >= 2 && IsDigit(c[0]) && !IsDigit(c[1]) && !GraphqlText.IsSpace(c[1]) && IsDigit(c[|c| - 1])
    ensures TryAll(ParseInt, [a, b, c]) == Err(ValueError(InvalidLiteral))
  {
    DigitParses(a);
    DigitParses(b);
    SuffixedPieceRaises(c);
    ThirdPieceRaises(ParseInt, a, b, c);
  }

  /** A single digit is an integer literal. */
  lemma {:induction false} DigitParses(ds: string)
    requires |ds| == 1 && IsDigit(ds[0])
    ensures ParseInt(ds).Ok?
  {
    ParseDigits(ds);
  }

  /** A digit followed by a character that is neither a digit nor whitespace is not an integer literal. */
  lemma {:induction false} SuffixedPieceRaises(t: string)
    requires |t| >= 2 && IsDigit(t[0]) && !IsDigit(t[1]) && !GraphqlText.IsSpace(t[1])
    requires IsDigit(t[|t| - 1])
    ensures ParseInt(t).Err?
  {
    NotLiteral(t);
    NoSpaceInNumber(t);
  }

  /** Text that starts with a digit but is not all digits is not an integer literal. */
  lemma {:induction false} NotLiteral(t: string)
    requires t != [] && IsDigit(t[0]) && !AllDigits(t)
    ensures ParseLiteral(t).Err?
  {
  }

  /** When only the third of three pieces raises, the list raises what it raises. */
  lemma {:induction false} ThirdPieceRaises<T>(f: string -> Result<T>, a: string, b: string, c: string)
    requires f(a).Ok? && f(b).Ok? && f(c).Err?
    ensures TryAll(f, [a, b, c]) == Err(f(c).error)
  {
    var parts := [a, b, c];
    assert TryAll(f, [c]) == Err(f(c).error) by {
      assert [c][1..] == [];
    }
    assert TryAll(f, [b, c]) == Err(f(c).error) by {
      assert [b, c][1..] == [c];
    }
    assert parts[1..] == [b, c];
  }

  // ---- Python tuple ordering ----

  /** Python's `a < b` on tuples of integers: lexicographic, a proper prefix is smaller. */
  predicate TupleLess(a: seq<int>, b: seq<int>)
    ensures TupleLess(a, b) ==> b != [] && a != b
    decreases |a|
  {
    if a == [] then b != []
    else if b == [] then false
    else if a[0] != b[0] then a[0] < b[0]
    else TupleLess(a[1..], b[1..])
  }

  lemma {:induction false} TupleLessIrreflexive(a: seq<int>)
    ensures !TupleLess(a, a)
    decreases |a|
  {
    if a != [] {
      TupleLessIrreflexive(a[1..]);
    }
  }

  lemma {:induction false} TupleLessTransitive(a: seq<int>, b: seq<int>, c: seq<int>)
    requires TupleLess(a, b) && TupleLess(b, c)
    ensures TupleLess(a, c)
    decreases |a|
  {
    if a != [] && a[0] == b[0] && b[0] == c[0] {
      TupleLessTransitive(a[1..], b[1..], c[1..]);
    }
  }

  /** Any two version tuples are ordered one way or the other, or equal. */
  lemma {:induction false} TupleLessTotal(a: seq<int>, b: seq<int>)
    ensures TupleLess(a, b) || a == b || TupleLess(b, a)
    decreases |a|
  {
    if a != [] && b != [] && a[0] == b[0] {
      TupleLessTotal(a[1..], b[1..]);
      if a[1..] == b[1..] {
        assert a == [a[0]] + a[1..] && b == [b[0]] + b[1..];
      }
    }
  }

  /**
   * Comparing a version with a (major, minor) pair: smaller exactly when its
   * major is smaller, or its major is equal and either it has no minor or a
   * smaller one — so the one-element tuple `(3,)` is below `(3, 0)`.
   */
  lemma {:induction false} CompareWithPair(v: seq<int>, major: int, minor: int)
    ensures TupleLess(v, [major, minor])
        <==> v == [] || v[0] < major || (v[0] == major && (|v| == 1 || v[1] < minor))
  {
    if v != [] && v[0] == major {
      var p: seq<int> := [major, minor];
      assert TupleLess(v, p) == TupleLess(v[1..], [minor]) by {
        assert p[1..] == [minor];
      }
      if |v| > 1 {
        var w := v[1..];
        assert w[0] == v[1];
        if v[1] == minor {
          assert TupleLess(w, [minor]) == TupleLess(w[1..], []) by {
            assert [minor][1..] == [];
          }
        }
      }
    }
  }

  // ---- what patch() wraps ----

  /** The modules and functions `patch()` wraps, as chosen by the version. */
  datatype Targets = Targets(
    graphqlModule: string, graphqlFunc: string,
    parseExecuteModule: string, validateModule: string,
    resolveModule: string, resolveFunc: string)

  /** The choice `patch()` makes from the version tuple, branch by branch. */
  function SelectTargets(v: seq<int>): (t: Targets)
    ensures t.graphqlModule in {"graphql.graphql", "graphql"}
    ensures TupleLess(v, [3, 0]) <==> t.resolveFunc == "resolve_field"
  {
    var below30 := TupleLess(v, [3, 0]);
    var in21to30 := !TupleLess(v, [2, 1]) && below30;
    Targets(
      if below30 then "graphql" else "graphql.graphql",
      if below30 then "graphql" else "graphql_impl",
      if in21to30 then "graphql.backend.core" else "graphql.graphql",
      if TupleLess(v, [2, 1]) then "graphql.graphql"
      else if in21to30 then "graphql.backend.core"
      else "graphql.validation",
      if below30 then "graphql.execution.executor" else "graphql.execution.execute",
      if below30 then "resolve_field"
      else if TupleLess(v, [3, 2]) then "ExecutionContext.resolve_field"
      else "ExecutionContext.execute_field")
  }

  /**
   * The same table by graphql-core release line, for a version with a major
   * and a minor number: 2.0, 2.1 and later 2.x, 3.0 and 3.1, 3.2 and later.
   */
  function TargetsForRelease(major: int, minor: int): Targets {
    if major < 3 then
      var backend := major == 2 && minor >= 1;
      Targets("graphql", "graphql",
        if backend then "graphql.backend.core" else "graphql.graphql",
        if backend then "graphql.backend.core" else "graphql.graphql",
        "graphql.execution.executor", "resolve_field")
    else
      Targets("graphql.graphql", "graphql_impl", "graphql.graphql", "graphql.validation",
        "graphql.execution.execute",
        if major == 3 && minor < 2 then "ExecutionContext.resolve_field" else "ExecutionContext.execute_field")
  }

  /**
   * For every version with a major and a non-negative minor number (as
   * releases have), the choice follows its release line.
   */
  lemma {:induction false} SelectTargetsByRelease(v: seq<int>)
    requires |v| >= 2 && v[1] >= 0
    ensures SelectTargets(v) == TargetsForRelease(v[0], v[1])
  {
    CompareWithPair(v, 3, 0);
    CompareWithPair(v, 2, 1);
    CompareWithPair(v, 3, 2);
    var below30, below21, below32 := TupleLess(v, [3, 0]), TupleLess(v, [2, 1]), TupleLess(v, [3, 2]);
    assert below30 <==> v[0] < 3;
    assert below21 <==> v[0] < 2 || (v[0] == 2 && v[1] < 1);
    assert !below30 ==> (below32 <==> v[0] == 3 && v[1] < 2);
  }

  /** The resolver wrapped for each release line. */
  lemma {:induction false} ResolverByVersion(v: seq<int>)
    requires |v| >= 2 && v[1] >= 0
    ensures v[0] < 3 ==> (SelectTargets(v).resolveModule == "graphql.execution.executor"
                          && SelectTargets(v).resolveFunc == "resolve_field")
    ensures v[0] == 3 && 0 <= v[1] < 2 ==> SelectTargets(v).resolveFunc == "ExecutionContext.resolve_field"
    ensures (v[0] == 3 && v[1] >= 2) || v[0] > 3 ==> SelectTargets(v).resolveFunc == "ExecutionContext.execute_field"
  {
    SelectTargetsByRelease(v);
  }

  /** A version given as just a major number sorts below that major's `.0`, so `(3,)` is handled like 2.x. */
  lemma ShortVersionIsOld()
    ensures SelectTargets([3]) == TargetsForRelease(2, 1)
  {
    CompareWithPair([3], 3, 0);
    CompareWithPair([3], 2, 1);
  }

  /** Which wrapper `_w` installs on a target. */
  datatype Wrapper = TracedGraphql | TracedOperation | TracedResolver

  /** One `_w(module, name, wrapper)` call. */
  datatype Wrap = Wrap(moduleName: string, name: string, wrapper: Wrapper)

  /** The five `_w` calls of `patch()`, in the order it makes them. */
  function PlannedWraps(t: Targets): (ws: seq<Wrap>)
    ensures |ws| == 5
    ensures forall i :: 0 <= i < 5 ==> (ws[i].wrapper == TracedOperation <==> 1 <= i <= 3)
    ensures ws[1].moduleName == ws[3].moduleName == t.parseExecuteModule
  {
    [Wrap(t.graphqlModule, t.graphqlFunc, TracedGraphql),
     Wrap(t.parseExecuteModule, "parse", TracedOperation),
     Wrap(t.validateModule, "validate", TracedOperation),
     Wrap(t.parseExecuteModule, "execute", TracedOperation),
     Wrap(t.resolveModule, t.resolveFunc, TracedResolver)]
  }

  /** Whether `patch()` goes past its guard: not yet flagged, and version at least (2, 0). */
  predicate ShouldPatch(flagged: bool, version: seq<int>)
    ensures ShouldPatch(flagged, version)
        <==> !flagged && version != [] && (version[0] > 2 || (version[0] == 2 && |version| >= 2 && version[1] >= 0))
  {
    CompareWithPair(version, 2, 0);
    !flagged && !TupleLess(version, [2, 0])
  }

  /** The state of the `graphql` module that `patch()` touches. */
  class GraphqlModule {
    /** The `_datadog_patch` attribute. */
    var datadogPatch: bool
    /** The wrappers installed so far, oldest first. */
    var wrapped: seq<Wrap>
    /** Whether a `Pin` has been attached. */
    var pinned: bool

    constructor ()
      ensures !datadogPatch && wrapped == [] && !pinned
    {
      datadogPatch := false;
      wrapped := [];
      pinned := false;
    }
  }

  /**
   * `patch()`: returns at once when the module is flagged or the version is
   * below (2, 0); otherwise flags the module, installs the five wrappers
   * chosen by the version and attaches a Pin.
   */
  method Patch(g: GraphqlModule, version: seq<int>)
    modifies g
    ensures !ShouldPatch(old(g.datadogPatch), version) ==>
      g.datadogPatch == old(g.datadogPatch) && g.wrapped == old(g.wrapped) && g.pinned == old(g.pinned)
    ensures ShouldPatch(old(g.datadogPatch), version) ==>
      g.datadogPatch && g.wrapped == old(g.wrapped) + PlannedWraps(SelectTargets(version)) && g.pinned
  {
    if g.datadogPatch || TupleLess(version, [2, 0]) {
      return;
    }
    g.datadogPatch := true;
    var t := SelectTargets(version);
    g.wrapped := g.wrapped + [Wrap(t.graphqlModule, t.graphqlFunc, TracedGraphql)];
    g.wrapped := g.wrapped + [Wrap(t.parseExecuteModule, "parse", TracedOperation)];
    g.wrapped := g.wrapped + [Wrap(t.validateModule, "validate", TracedOperation)];
    g.wrapped := g.wrapped + [Wrap(t.parseExecuteModule, "execute", TracedOperation)];
    g.wrapped := g.wrapped + [Wrap(t.resolveModule, t.resolveFunc, TracedResolver)];
    g.pinned := true;
  }

  /** Patching twice wraps each target once: the second call finds the flag and does nothing. */
  method PatchTwice(g: GraphqlModule, version: seq<int>)
    modifies g
    ensures g.wrapped == old(g.wrapped) + (if ShouldPatch(old(g.datadogPatch), version)
                                           then PlannedWraps(SelectTargets(version)) else [])
  {
    Patch(g, version);
    Patch(g, version);
  }

  /** Without a version attribute, `patch()` leaves the module alone. */
  method PatchWithoutVersion(g: GraphqlModule)
    modifies g
    ensures g.datadogPatch == old(g.datadogPatch) && g.wrapped == old(g.wrapped) && g.pinned == old(g.pinned)
  {
    var v := ParseVersion(VersionString(None));
    assert TupleLess(v.value, [2, 0]);
    Patch(g, v.value);
  }
}
