/**
 * The CQL scanner of `CqlResourceGenerator.parse_cql`: a handful of
 * independent pattern checks over the raw CQL text that fill one record.
 * Each regular expression of the source is a dedicated scanner here.
 */
module CqlParser {
  import opened Wrappers
  import opened Text

  /** The header after which an indicator's own logic starts. */
  const IndicatorHeaderMarker := "// Indicator Definition"
  /** `DAK_INDICATOR_ID_PATTERN` is this prefix followed by one or more digits. */
  const IndicatorIdPrefix := "HIV.IND."
  const LibraryKeyword := "library"
  const LogicSuffix := "Logic"
  const DenominatorDecl := "define \"denominator\":"
  const NumeratorDecl := "define \"numerator\":"
  const InitialPopulationDecl := "define \"Initial Population\":"
  const MeasurePopulationDecl := "define \"Measure Population\":"
  const MeasureObservationDecl := "define function \"Measure Observation\""
  const DefineOpen := "define \""
  const DefineClose := "\":"
  const StratifierSuffix := " Stratifier"
  const PopulationExclusionSuffix := " Population Exclusion"

  /**
   * The record `parse_cql` builds. The source's `stratifiers` dictionary maps
   * every title to `True`; only its keys, in insertion order, carry information.
   */
  datatype ParsedCql = ParsedCql(
    libraryName: string,
    isIndicator: bool,
    templateOnly: Option<bool>,
    initialPopulation: bool,
    measurePopulation: bool,
    measureObservation: bool,
    numerator: bool,
    denominator: bool,
    stratifiers: seq<string>)

  /** The two ways `parse_cql` raises. */
  datatype ParseError =
    | MissingLibraryName            // the `ValueError` for a text without a library name
    | PopulationExclusionsKeyError  // the `KeyError` on the never-initialised "population exclusions" entry

  /**
   * `templateOnly`: unset without the header marker; otherwise whether only
   * whitespace follows its first occurrence.
   */
  function TemplateOnly(s: string): (r: Option<bool>)
    ensures r.None? <==> !Occurs(s, IndicatorHeaderMarker)
    ensures r.Some? ==> exists i: nat ::
      && StartsWithAt(s, i, IndicatorHeaderMarker)
      && (forall k: nat :: k < i ==> !StartsWithAt(s, k, IndicatorHeaderMarker))
      && r.value == IsBlank(s[i + |IndicatorHeaderMarker|..])
  {
    match FirstOccurrence(s, IndicatorHeaderMarker)
    case None => None
    case Some(i) => Some(IsBlank(s[i + |IndicatorHeaderMarker|..]))
  }

  /** An indicator identifier `HIV.IND.<digit>...` starts at `i`. */
  predicate IndicatorIdAt(s: string, i: nat) {
    && StartsWithAt(s, i, IndicatorIdPrefix)
    && i + |IndicatorIdPrefix| < |s|
    && IsDigit(s[i + |IndicatorIdPrefix|])
  }

  /** Where the greedy `\d+` of an identifier at `i` stops. */
  function IndicatorIdEnd(s: string, i: nat): (r: nat)
    requires IndicatorIdAt(s, i)
    ensures i + |IndicatorIdPrefix| < r <= |s|
  {
    RunEnd(s, i + |IndicatorIdPrefix|, IsDigit)
  }

  /** `DAK_INDICATOR_ID_PATTERN.search` from position `from`: the leftmost identifier. */
  function FindIndicatorId(s: string, from: nat): (r: Option<nat>)
    requires from <= |s|
    ensures r.Some? ==> from <= r.value && IndicatorIdAt(s, r.value)
    ensures r.Some? ==> forall k: nat :: from <= k < r.value ==> !IndicatorIdAt(s, k)
    ensures r.None? ==> forall k: nat :: from <= k ==> !IndicatorIdAt(s, k)
    decreases |s| - from
  {
    if from == |s| then None
    else if IndicatorIdAt(s, from) then Some(from)
    else FindIndicatorId(s, from + 1)
  }

  /** `^` in multi-line mode: the start of the text or just after a line break. */
  predicate AtLineStart(s: string, i: nat) {
    i == 0 || (i <= |s| && s[i - 1] == '\n')
  }

  /** `^library\s(\w+)\s` matches at `i`: the keyword, one whitespace, the name, one whitespace. */
  predicate LibraryDeclAt(s: string, i: nat) {
    var n := i + |LibraryKeyword|;
    && AtLineStart(s, i)
    && StartsWithAt(s, i, LibraryKeyword)
    && n + 1 < |s|
    && IsSpace(s[n])
    && IsWordChar(s[n + 1])
    && RunEnd(s, n + 1, IsWordChar) < |s|
    && IsSpace(s[RunEnd(s, n + 1, IsWordChar)])
  }

  /** Where the library name that starts right after `library ` ends. */
  function DeclaredNameEnd(s: string, i: nat): (r: nat)
    requires LibraryDeclAt(s, i)
    ensures i + |LibraryKeyword| + 1 < r < |s|
  {
    RunEnd(s, i + |LibraryKeyword| + 1, IsWordChar)
  }

  /** `re.search(r"^library\s(\w+)\s.*$", s, re.MULTILINE)` from position `from`: the leftmost declaration. */
  function FindLibraryDecl(s: string, from: nat): (r: Option<nat>)
    requires from <= |s|
    ensures r.Some? ==> from <= r.value && LibraryDeclAt(s, r.value)
    ensures r.Some? ==> forall k: nat :: from <= k < r.value ==> !LibraryDeclAt(s, k)
    ensures r.None? ==> forall k: nat :: from <= k ==> !LibraryDeclAt(s, k)
    decreases |s| - from
  {
    if from == |s| then None
    else if LibraryDeclAt(s, from) then Some(from)
    else FindLibraryDecl(s, from + 1)
  }

  /** A library name found in the text, before the `Logic` suffix is removed. */
  datatype LibraryIdentity = LibraryIdentity(name: string, isIndicator: bool)

  /** The indicator identifier if there is one, else the declared library name. */
  function IdentifyLibrary(s: string): Option<LibraryIdentity> {
    match FindIndicatorId(s, 0)
    case Some(i) => Some(LibraryIdentity(s[i..IndicatorIdEnd(s, i)], true))
    case None =>
      match FindLibraryDecl(s, 0)
      case Some(i) => Some(LibraryIdentity(s[i + |LibraryKeyword| + 1..DeclaredNameEnd(s, i)], false))
      case None => None
  }

  /**
   * A library name is found unless the text has neither an indicator
   * identifier nor a `library` line, and it is an indicator's exactly when
   * the text has an identifier.
   */
  lemma IdentifyLibraryFinds(s: string)
    ensures IdentifyLibrary(s).None? <==> (forall i: nat :: !IndicatorIdAt(s, i)) && (forall i: nat :: !LibraryDeclAt(s, i))
    ensures IdentifyLibrary(s).Some? ==> (IdentifyLibrary(s).value.isIndicator <==> exists i: nat :: IndicatorIdAt(s, i))
  {
  }

  /** A trailing `Logic` is removed once, and nothing else changes. */
  function StripLogic(name: string): (r: string)
    ensures EndsWith(name, LogicSuffix) ==> r + LogicSuffix == name
    ensures !EndsWith(name, LogicSuffix) ==> r == name
  {
    if EndsWith(name, LogicSuffix) then name[..|name| - |LogicSuffix|] else name
  }

  /**
   * `define "` at `i`, then a non-empty stretch without a line break up to
   * `j`, where `suffix` and `":` follow: the shape of `define "(.+<suffix>)":`.
   */
  ghost predicate DefineGroupEndsAt(s: string, i: nat, j: nat, suffix: string) {
    && StartsWithAt(s, i, DefineOpen)
    && i + |DefineOpen| < j
    && StartsWithAt(s, j, suffix + DefineClose)
    && forall k :: i + |DefineOpen| <= k < j ==> s[k] != '\n'
  }

  /**
   * The match of `define "(.+<suffix>)":` at `i`: the greedy `.+` backs off
   * from the end of the line, so the suffix found is the last one on the line.
   */
  function DefineMatchAt(s: string, i: nat, suffix: string): (r: Option<nat>)
    ensures r.Some? ==> DefineGroupEndsAt(s, i, r.value, suffix)
    ensures r.Some? ==> forall j: nat :: r.value < j ==> !DefineGroupEndsAt(s, i, j, suffix)
    ensures r.None? ==> forall j: nat :: !DefineGroupEndsAt(s, i, j, suffix)
  {
    if !StartsWithAt(s, i, DefineOpen) then None
    else
      var e := LineEnd(s, i + |DefineOpen|);
      var P := (j: nat) => StartsWithAt(s, j, suffix + DefineClose);
      var r := LastWhere(i + |DefineOpen| + 1, e + 1, P);
      assert forall j: nat :: e < j ==> !DefineGroupEndsAt(s, i, j, suffix) by {
        forall j: nat | e < j ensures !DefineGroupEndsAt(s, i, j, suffix) {
          if e < |s| {
            assert s[e] == '\n';
          }
        }
      }
      assert r.Some? ==> DefineGroupEndsAt(s, i, r.value, suffix) by {
        if r.Some? {
          assert P(r.value);
        }
      }
      assert r.Some? ==> forall j: nat :: r.value < j ==> !DefineGroupEndsAt(s, i, j, suffix) by {
        if r.Some? {
          forall j: nat | r.value < j ensures !DefineGroupEndsAt(s, i, j, suffix) {
            if j <= e {
              assert !P(j);
            }
          }
        }
      }
      assert r.None? ==> forall j: nat :: !DefineGroupEndsAt(s, i, j, suffix) by {
        if r.None? {
          forall j: nat ensures !DefineGroupEndsAt(s, i, j, suffix) {
            if i + |DefineOpen| + 1 <= j <= e {
              assert !P(j);
            }
          }
        }
      }
      r
  }

  /** `t` is a title captured by `define "(.+<suffix>)":` somewhere in `s`. */
  ghost predicate IsDefinedTitle(s: string, t: string, suffix: string) {
    && EndsWith(t, suffix)
    && |t| > |suffix|
    && '\n' !in t
    && Occurs(s, DefineOpen + t + DefineClose)
  }

  /**
   * `re.findall(r'define "(.+<suffix>)":', s)` from position `from`: matches
   * are tried left to right and do not overlap.
   */
  function FindAllDefines(s: string, suffix: string, from: nat): (r: seq<string>)
    requires '\n' !in suffix
    ensures forall k :: 0 <= k < |r| ==> IsDefinedTitle(s, r[k], suffix)
    decreases |s| - from
  {
    if from >= |s| then []
    else
      match DefineMatchAt(s, from, suffix)
      case None => FindAllDefines(s, suffix, from + 1)
      case Some(j) =>
        var t := s[from + |DefineOpen|..j + |suffix|];
        DefinedTitleAt(s, suffix, from, j);
        [t] + FindAllDefines(s, suffix, j + |suffix| + |DefineClose|)
  }

  /** The scan finds nothing exactly when the pattern matches nowhere from `from` on. */
  lemma {:induction false} FindAllDefinesEmpty(s: string, suffix: string, from: nat)
    requires '\n' !in suffix
    ensures FindAllDefines(s, suffix, from) == [] <==>
      forall i: nat, j: nat :: from <= i ==> !DefineGroupEndsAt(s, i, j, suffix)
    decreases |s| - from
  {
    if from >= |s| {
      forall i: nat, j: nat | from <= i ensures !DefineGroupEndsAt(s, i, j, suffix) {
        assert !StartsWithAt(s, i, DefineOpen);
      }
    } else {
      match DefineMatchAt(s, from, suffix)
      case None =>
        FindAllDefinesEmpty(s, suffix, from + 1);
      case Some(j) =>
        assert DefineGroupEndsAt(s, from, j, suffix);
    }
  }

  /** The match that starts at `i` is the next one the scan takes. */
  lemma FindAllDefinesAtMatch(s: string, suffix: string, i: nat, j: nat)
    requires '\n' !in suffix
    requires DefineMatchAt(s, i, suffix) == Some(j)
    ensures FindAllDefines(s, suffix, i) ==
      [s[i + |DefineOpen|..j + |suffix|]] + FindAllDefines(s, suffix, j + |suffix| + |DefineClose|)
  {
    assert StartsWithAt(s, i, DefineOpen);
  }

  /**
   * The scan is left to right and does not overlap: the first title is that
   * of the leftmost match, and the scan resumes just after that match's `":`.
   */
  lemma {:induction false} FindAllDefinesAtLeftmost(s: string, suffix: string, from: nat, i: nat, j: nat)
    requires '\n' !in suffix
    requires from <= i && DefineMatchAt(s, i, suffix) == Some(j)
    requires forall k: nat :: from <= k < i ==> DefineMatchAt(s, k, suffix).None?
    ensures FindAllDefines(s, suffix, from) ==
      [s[i + |DefineOpen|..j + |suffix|]] + FindAllDefines(s, suffix, j + |suffix| + |DefineClose|)
    decreases i - from
  {
    if from < i {
      assert StartsWithAt(s, i, DefineOpen);
      assert DefineMatchAt(s, from, suffix).None?;
      FindAllDefinesAtLeftmost(s, suffix, from + 1, i, j);
    } else {
      FindAllDefinesAtMatch(s, suffix, i, j);
    }
  }

  /** The text a match covers is `define "`, the title, and `":`. */
  lemma DefinedTitleAt(s: string, suffix: string, i: nat, j: nat)
    requires '\n' !in suffix
    requires DefineGroupEndsAt(s, i, j, suffix)
    ensures IsDefinedTitle(s, s[i + |DefineOpen|..j + |suffix|], suffix)
  {
    var o := |DefineOpen|;
    var t := s[i + o..j + |suffix|];
    assert s[j..j + |suffix| + |DefineClose|] == suffix + DefineClose;
    assert s[j..j + |suffix|] == s[j..j + |suffix| + |DefineClose|][..|suffix|];
    assert t == s[i + o..j] + s[j..j + |suffix|];
    assert t[|t| - |suffix|..] == suffix;
    assert s[i..i + o] == DefineOpen;
    assert s[j + |suffix|..j + |suffix| + |DefineClose|] == DefineClose;
    SliceInThree(s, i, i + o, j + |suffix|, j + |suffix| + |DefineClose|);
    assert StartsWithAt(s, i, DefineOpen + t + DefineClose);
    forall k | 0 <= k < |t| ensures t[k] != '\n' {
      if k < j - (i + o) {
        assert t[k] == s[i + o + k];
      } else {
        assert t[k] == suffix[k - (j - (i + o))];
      }
    }
  }

  /** A slice is the concatenation of three consecutive slices. */
  lemma SliceInThree(s: string, a: nat, b: nat, c: nat, d: nat)
    requires a <= b <= c <= d <= |s|
    ensures s[a..d] == s[a..b] + s[b..c] + s[c..d]
  {
    assert s[a..d] == s[a..c] + s[c..d];
    assert s[a..c] == s[a..b] + s[b..c];
  }

  /** The position of the first occurrence of `x` in `xs`. */
  function FirstIndex(xs: seq<string>, x: string): (r: nat)
    requires x in xs
    ensures r < |xs| && xs[r] == x && x !in xs[..r]
  {
    if xs[0] == x then 0
    else
      var r := 1 + FirstIndex(xs[1..], x);
      assert xs[..r] == [xs[0]] + xs[1..][..r - 1];
      r
  }

  /** A first occurrence is determined by its defining property. */
  lemma FirstIndexIsUnique(xs: seq<string>, x: string, p: nat)
    requires p < |xs| && xs[p] == x && x !in xs[..p]
    ensures FirstIndex(xs, x) == p
  {
  }

  /**
   * The keys of a Python `dict` filled by assigning every element of `xs` in
   * turn: each distinct element once, in order of first appearance.
   */
  function DistinctInOrder(xs: seq<string>): (r: seq<string>)
    ensures forall x :: x in r <==> x in xs
    ensures forall a, b :: 0 <= a < b < |r| ==> r[a] != r[b]
    ensures forall a, b :: 0 <= a < b < |r| ==> FirstIndex(xs, r[a]) < FirstIndex(xs, r[b])
    decreases |xs|
  {
    if xs == [] then []
    else
      var init := xs[..|xs| - 1];
      var x := xs[|xs| - 1];
      var d := DistinctInOrder(init);
      assert xs == init + [x];
      forall y | y in init ensures FirstIndex(init, y) == FirstIndex(xs, y) {
        var p := FirstIndex(init, y);
        assert xs[..p] == init[..p];
        FirstIndexIsUnique(xs, y, p);
      }
      if x in d then d
      else
        assert x !in init;
        assert xs[..|xs| - 1] == init;
        FirstIndexIsUnique(xs, x, |xs| - 1);
        d + [x]
  }

  /** The first key of the dictionary is the first element assigned. */
  lemma DistinctInOrderHead(xs: seq<string>)
    requires xs != []
    ensures DistinctInOrder(xs) != [] && DistinctInOrder(xs)[0] == xs[0]
  {
    var r := DistinctInOrder(xs);
    assert xs[0] in r;
    assert FirstIndex(xs, xs[0]) == 0;
    forall b | 0 < b < |r|
      ensures r[b] != xs[0]
    {
      assert FirstIndex(xs, r[0]) < FirstIndex(xs, r[b]);
    }
  }

  /**
   * `parse_cql` as a function of the CQL text: the library name (a leftmost
   * indicator identifier, else the declared library name, with one trailing
   * `Logic` removed), the template marker, five declaration flags and the
   * stratifier titles.
   */
  function Parse(s: string): (r: Result<ParsedCql, ParseError>)
    ensures r == Err(MissingLibraryName) <==>
      (forall i: nat :: !IndicatorIdAt(s, i)) && (forall i: nat :: !LibraryDeclAt(s, i))
    ensures r.Ok? ==> (r.value.isIndicator <==> exists i: nat :: IndicatorIdAt(s, i))
    ensures r.Ok? ==> r.value.templateOnly == TemplateOnly(s)
    ensures r.Ok? ==> (r.value.denominator <==> exists i: nat :: MatchesFoldedAt(s, i, DenominatorDecl))
    ensures r.Ok? ==> (r.value.numerator <==> exists i: nat :: MatchesFoldedAt(s, i, NumeratorDecl))
    ensures r.Ok? ==>
      (r.value.initialPopulation <==> exists i: nat :: MatchesFoldedAt(s, i, InitialPopulationDecl))
    ensures r.Ok? ==>
      (r.value.measurePopulation <==> exists i: nat :: MatchesFoldedAt(s, i, MeasurePopulationDecl))
    ensures r.Ok? ==>
      (r.value.measureObservation <==> exists i: nat :: MatchesFoldedAt(s, i, MeasureObservationDecl))
    ensures r.Ok? ==> forall t :: t in r.value.stratifiers <==> t in FindAllDefines(s, StratifierSuffix, 0)
    ensures r.Ok? ==> forall k :: 0 <= k < |r.value.stratifiers| ==>
      IsDefinedTitle(s, r.value.stratifiers[k], StratifierSuffix)
    ensures r.Ok? ==> forall a, b :: 0 <= a < b < |r.value.stratifiers| ==>
      r.value.stratifiers[a] != r.value.stratifiers[b]
  {
    match IdentifyLibrary(s)
    case None => Err(MissingLibraryName)
    case Some(id) =>
      if FindAllDefines(s, PopulationExclusionSuffix, 0) != [] then Err(PopulationExclusionsKeyError)
      else
        var titles := FindAllDefines(s, StratifierSuffix, 0);
        var strats := DistinctInOrder(titles);
        assert forall k :: 0 <= k < |strats| ==> strats[k] in titles;
        Ok(ParsedCql(
          libraryName := StripLogic(id.name),
          isIndicator := id.isIndicator,
          templateOnly := TemplateOnly(s),
          initialPopulation := ContainsFolded(s, InitialPopulationDecl),
          measurePopulation := ContainsFolded(s, MeasurePopulationDecl),
          measureObservation := ContainsFolded(s, MeasureObservationDecl),
          numerator := ContainsFolded(s, NumeratorDecl),
          denominator := ContainsFolded(s, DenominatorDecl),
          stratifiers := strats))
  }

  /**
   * The library name of a text with an indicator identifier is its leftmost
   * identifier, unchanged by the suffix rule, and the text is an indicator.
   */
  lemma {:induction false} ParseNamesFirstIndicatorId(s: string, i: nat)
    requires IndicatorIdAt(s, i)
    requires forall k: nat :: k < i ==> !IndicatorIdAt(s, k)
    ensures Parse(s) != Err(MissingLibraryName)
    ensures Parse(s).Ok? ==> Parse(s).value.libraryName == s[i..IndicatorIdEnd(s, i)]
    ensures Parse(s).Ok? ==> Parse(s).value.isIndicator
  {
    var f := FindIndicatorId(s, 0);
    assert f == Some(i);
    var name := s[i..IndicatorIdEnd(s, i)];
    var e := IndicatorIdEnd(s, i);
    assert name[|name| - 1] == s[e - 1];
    assert IsDigit(s[e - 1]);
    assert !EndsWith(name, LogicSuffix);
  }

  /**
   * Without an indicator identifier, the library name is the word after the
   * first line-initial `library`, with one trailing `Logic` removed.
   */
  lemma {:induction false} ParseNamesDeclaredLibrary(s: string, i: nat)
    requires forall k: nat :: !IndicatorIdAt(s, k)
    requires LibraryDeclAt(s, i)
    requires forall k: nat :: k < i ==> !LibraryDeclAt(s, k)
    ensures Parse(s) != Err(MissingLibraryName)
    ensures Parse(s).Ok? ==>
      Parse(s).value.libraryName == StripLogic(s[i + |LibraryKeyword| + 1..DeclaredNameEnd(s, i)])
    ensures Parse(s).Ok? ==> !Parse(s).value.isIndicator
  {
    assert FindIndicatorId(s, 0).None?;
    assert FindLibraryDecl(s, 0) == Some(i);
  }

  /** Stratifier titles keep the order in which their first match appears. */
  lemma {:induction false} ParseKeepsStratifierOrder(s: string)
    ensures Parse(s).Ok? ==>
      var strats := Parse(s).value.stratifiers;
      var titles := FindAllDefines(s, StratifierSuffix, 0);
      forall a, b :: 0 <= a < b < |strats| ==> FirstIndex(titles, strats[a]) < FirstIndex(titles, strats[b])
  {
    if Parse(s).Ok? {
      assert Parse(s).value.stratifiers == DistinctInOrder(FindAllDefines(s, StratifierSuffix, 0));
    }
  }

  /**
   * A successful parse of a text with a `define "<title> Stratifier":`
   * definition starts its stratifier list with the title of the leftmost one.
   */
  lemma {:induction false} ParseFindsStratifiers(s: string, i: nat, j: nat)
    requires DefineMatchAt(s, i, StratifierSuffix) == Some(j)
    requires forall k: nat :: k < i ==> DefineMatchAt(s, k, StratifierSuffix).None?
    ensures Parse(s).Ok? ==>
      && Parse(s).value.stratifiers != []
      && Parse(s).value.stratifiers[0] == s[i + |DefineOpen|..j + |StratifierSuffix|]
  {
    FindAllDefinesAtLeftmost(s, StratifierSuffix, 0, i, j);
    if Parse(s).Ok? {
      assert Parse(s).value.stratifiers == DistinctInOrder(FindAllDefines(s, StratifierSuffix, 0));
      DistinctInOrderHead(FindAllDefines(s, StratifierSuffix, 0));
    }
  }

  /** Without any stratifier definition the stratifier list is empty, and only then. */
  lemma {:induction false} ParseWithoutStratifiers(s: string)
    ensures Parse(s).Ok? ==> (Parse(s).value.stratifiers == [] <==>
      forall i: nat, j: nat :: !DefineGroupEndsAt(s, i, j, StratifierSuffix))
  {
    FindAllDefinesEmpty(s, StratifierSuffix, 0);
    if Parse(s).Ok? {
      var titles := FindAllDefines(s, StratifierSuffix, 0);
      assert Parse(s).value.stratifiers == DistinctInOrder(titles);
      if titles != [] {
        assert titles[0] in DistinctInOrder(titles);
      }
    }
  }

  /**
   * A text with a library name and a `define "<title> Population
   * Exclusion":` fails with the lookup error, and only such a text does.
   */
  lemma {:induction false} ParseFailsOnExclusions(s: string)
    ensures Parse(s) == Err(PopulationExclusionsKeyError) <==>
      && ((exists i: nat :: IndicatorIdAt(s, i)) || (exists i: nat :: LibraryDeclAt(s, i)))
      && (exists i: nat, j: nat :: DefineGroupEndsAt(s, i, j, PopulationExclusionSuffix))
  {
    FindAllDefinesEmpty(s, PopulationExclusionSuffix, 0);
    if FindIndicatorId(s, 0).None? && FindLibraryDecl(s, 0).None? {
      assert IdentifyLibrary(s).None?;
    } else {
      assert IdentifyLibrary(s).Some?;
    }
  }
}
