/**
 * The resource generator object: it holds the CQL text and the indicator
 * dictionary, parses the text once and keeps the parsed record, and renders
 * the Library and Measure FSH from it.
 */
module CqlTools {
  import opened Wrappers
  import opened Text
  import opened CqlParser
  import opened IndicatorTable
  import opened FshTemplates
  import opened LibraryBuilder
  import opened MeasureBuilder
  import opened LineText

  class CqlResourceGenerator {
    const cqlContent: string
    const indicatorDictionary: IndicatorDictionary
    /** The memoised parse; `None` plays the part of the source's empty sentinel. */
    var parsedCql: Option<ParsedCql>

    /** A cached record is always the parse of the text. */
    ghost predicate Valid()
      reads this
    {
      parsedCql.Some? ==> Parse(cqlContent) == Ok(parsedCql.value)
    }

    /** The object after a successful construction: the record is cached. */
    ghost predicate Parsed()
      reads this
    {
      Valid() && parsedCql.Some?
    }

    /** Stores the inputs with nothing parsed yet. */
    constructor(content: string, dict: IndicatorDictionary)
      ensures cqlContent == content && indicatorDictionary == dict
      ensures parsedCql == None
      ensures Valid()
    {
      cqlContent := content;
      indicatorDictionary := dict;
      parsedCql := None;
    }

    /**
     * `__init__`: construction parses the text at once, so a text the parse
     * rejects yields no generator, with the parse's error.
     */
    static method Create(content: string, dict: IndicatorDictionary) returns (r: Result<CqlResourceGenerator, ParseError>)
      ensures r.Err? <==> Parse(content).Err?
      ensures r.Err? ==> r.error == Parse(content).error
      ensures r.Ok? ==> fresh(r.value) && r.value.Parsed()
      ensures r.Ok? ==> r.value.cqlContent == content && r.value.indicatorDictionary == dict
      ensures r.Ok? ==> Parse(content) == Ok(r.value.parsedCql.value)
    {
      var g := new CqlResourceGenerator(content, dict);
      var parsed := g.ParseCql();
      if parsed.Err? {
        return Err(parsed.error);
      }
      return Ok(g);
    }

    /**
     * `parse_cql`: a cached record is returned unchanged; otherwise the text
     * is scanned, the record is cached and returned. The result is always the
     * parse of the text, and a failed parse caches nothing.
     */
    method ParseCql() returns (r: Result<ParsedCql, ParseError>)
      requires Valid()
      modifies this
      ensures Valid()
      ensures r == Parse(cqlContent)
      ensures old(parsedCql).Some? ==> r == Ok(old(parsedCql).value) && parsedCql == old(parsedCql)
      ensures old(parsedCql).None? && r.Ok? ==> parsedCql == Some(r.value)
      ensures r.Err? ==> parsedCql == None
    {
      if parsedCql.Some? {
        return Ok(parsedCql.value);
      }
      r := ScanCql(cqlContent);
      if r.Ok? {
        parsedCql := Some(r.value);
      }
    }


    /** `get_library_name`: the library name of the text's parse. */
    function LibraryName(): (r: string)
      reads this
      requires Parsed()
      ensures Parse(cqlContent).Ok? && r == Parse(cqlContent).value.libraryName
    {
      parsedCql.value.libraryName
    }

    /** `is_indicator`: whether the text's parse found an indicator identifier. */
    function IsIndicator(): (r: bool)
      reads this
      requires Parsed()
      ensures Parse(cqlContent).Ok?
      ensures r <==> exists i: nat :: IndicatorIdAt(cqlContent, i)
    {
      parsedCql.value.isIndicator
    }

    /**
     * `generate_library_fsh`: the Library template filled with the fields
     * derived from the parsed library name, or the lookup failure for an
     * indicator row without a definition.
     */
    function GenerateLibraryFsh(): (r: Result<string, FshError>)
      reads this
      requires Parsed()
      ensures Parse(cqlContent).Ok?
      ensures var name := Parse(cqlContent).value.libraryName;
        var libraryName := RemoveChar(name, '.') + LogicSuffix;
        && (r.Err? <==> name in indicatorDictionary && IndicatorDefinitionColumn !in indicatorDictionary[name])
        && (r.Ok? && name in indicatorDictionary ==> r.value == LibraryTemplate(
              libraryName, name, indicatorDictionary[name][IndicatorDefinitionColumn], DakName(name)))
        && (r.Ok? && name !in indicatorDictionary ==> r.value == LibraryTemplate(
              libraryName, name, PlaceholderDescriptionPrefix + libraryName + ".", DakName(name)))
    {
      match LibraryFieldsOf(parsedCql.value.libraryName, indicatorDictionary)
      case Err(e) => Err(e)
      case Ok(f) => Ok(LibraryTemplate(f.libraryName, f.title, f.description, f.dakName))
    }

    /**
     * `generate_measure_fsh`: the Measure text is built by appending the
     * header, the scoring line and, when the group is opened, one clause per
     * set population flag and per stratifier; blank lines are then dropped.
     * `resolve` stands for the scoring resolver and `date` for today's date.
     */
    method GenerateMeasureFsh(resolve: ParsedCql -> Scoring, date: string) returns (r: Result<Option<string>, FshError>)
      requires Parsed()
      ensures r == MeasureFsh(parsedCql.value, indicatorDictionary, resolve, date)
    {
      var p := parsedCql.value;
      if !p.isIndicator || p.templateOnly == Some(true) {
        return Ok(None);
      }
      if p.libraryName !in indicatorDictionary {
        return Err(MissingIndicator(p.libraryName));
      }
      r := MeasureForRow(p, indicatorDictionary[p.libraryName], resolve, date);
    }
  }

  /**
   * The Measure for the indicator's row: the header fields are read from the
   * row, the scoring is resolved, and the header, the scoring line and the
   * group block are appended before blank lines are dropped.
   */
  method MeasureForRow(p: ParsedCql, row: Row, resolve: ParsedCql -> Scoring, date: string)
    returns (r: Result<Option<string>, FshError>)
    ensures r == RowMeasure(p, row, resolve(p), date)
  {
    if DakIdColumn !in row {
      return Err(MissingField(DakIdColumn));
    }
    if ShortNameColumn !in row {
      return Err(MissingField(ShortNameColumn));
    }
    if IndicatorDefinitionColumn !in row {
      return Err(MissingField(IndicatorDefinitionColumn));
    }
    var dakId := row[DakIdColumn];
    var measureName := RemoveChar(dakId, '.');
    var title := dakId + " " + row[ShortNameColumn];
    var description := row[IndicatorDefinitionColumn];
    var scoring := resolve(p);
    if scoring.code == "" {
      return Ok(None);
    }
    var measure := MeasureTemplate(measureName, scoring.instance, title, description, DakName(p.libraryName), date);
    assert measure == MeasureHeader(p, row, scoring, date);
    measure := measure + ScoringTemplate(scoring.code, scoring.title);
    var group := AppendGroup(measure, p, row, dakId);
    if group.Err? {
      return Err(group.error);
    }
    assert group.value == MeasureText(p, row, scoring, date);
    return Ok(Some(DropBlankLines(group.value)));
  }

  /**
   * Opens the group when a stratifier or one of the IP, MP, DEN and NUM flags
   * is present, then appends the population clauses and the stratifiers.
   */
  method AppendGroup(measure: string, p: ParsedCql, row: Row, dakId: string) returns (r: Result<string, FshError>)
    ensures r.Err? <==> (p.denominator && DenominatorDefinitionColumn !in row) || (p.numerator && NumeratorDefinitionColumn !in row)
    ensures r.Err? && p.denominator && DenominatorDefinitionColumn !in row ==>
      r.error == MissingField(DenominatorDefinitionColumn)
    ensures r.Err? && !(p.denominator && DenominatorDefinitionColumn !in row) ==>
      r.error == MissingField(NumeratorDefinitionColumn)
    ensures r.Ok? ==> r.value == measure + GroupBlock(dakId, EmittedClauses(p,
      CellOrEmpty(row, DenominatorDefinitionColumn), CellOrEmpty(row, NumeratorDefinitionColumn)))
  {
    ghost var den := CellOrEmpty(row, DenominatorDefinitionColumn);
    ghost var num := CellOrEmpty(row, NumeratorDefinitionColumn);
    if !HasGroup(p) {
      return Ok(measure);
    }
    var text := measure + GroupOpen;
    var render := ClauseRenderer(dakId);
    var populations := AppendPopulations(text, p, row, render);
    if populations.Err? {
      return Err(populations.error);
    }
    text := AppendStratifiers(populations.value, p.stratifiers, render);
    ghost var pops := PopulationClauses(p, den, num);
    ghost var strats := StratifierClauses(p.stratifiers);
    RenderAllConcat(render, pops, strats);
    Regroup(measure, GroupOpen, RenderAll(render, pops), RenderAll(render, strats), "");
    assert RenderAll(render, strats) + "" == RenderAll(render, strats);
    ghost var emitted := EmittedClauses(p, den, num);
    assert emitted == pops + strats;
    assert GroupBlock(dakId, emitted) == GroupOpen + RenderAll(render, pops + strats);
    return Ok(text);
  }

  /**
   * Appends, in the fixed order, the clause of every set population flag; the
   * denominator and numerator definitions are looked up only when their
   * clauses are appended. `render` gives each clause's text.
   */
  method AppendPopulations(measure: string, p: ParsedCql, row: Row, render: Clause -> string)
    returns (r: Result<string, FshError>)
    ensures r.Err? <==>
      (p.denominator && DenominatorDefinitionColumn !in row) || (p.numerator && NumeratorDefinitionColumn !in row)
    ensures r.Err? && p.denominator && DenominatorDefinitionColumn !in row ==>
      r.error == MissingField(DenominatorDefinitionColumn)
    ensures r.Err? && !(p.denominator && DenominatorDefinitionColumn !in row) ==>
      r.error == MissingField(NumeratorDefinitionColumn)
    ensures r.Ok? ==> r.value == measure + RenderAll(render, PopulationClauses(p,
      CellOrEmpty(row, DenominatorDefinitionColumn), CellOrEmpty(row, NumeratorDefinitionColumn)))
  {
    ghost var den := CellOrEmpty(row, DenominatorDefinitionColumn);
    ghost var num := CellOrEmpty(row, NumeratorDefinitionColumn);
    var text := measure;
    ghost var emitted: seq<Clause> := [];
    if p.initialPopulation {
      ExtendRendering(render, measure, text, emitted, InitialPopulation);
      text := text + render(InitialPopulation);
    }
    emitted := AppendIf(emitted, p.initialPopulation, InitialPopulation);
    if p.measurePopulation {
      ExtendRendering(render, measure, text, emitted, MeasurePopulation);
      text := text + render(MeasurePopulation);
    }
    emitted := AppendIf(emitted, p.measurePopulation, MeasurePopulation);
    if p.measureObservation {
      ExtendRendering(render, measure, text, emitted, MeasureObservation);
      text := text + render(MeasureObservation);
    }
    emitted := AppendIf(emitted, p.measureObservation, MeasureObservation);
    if p.denominator {
      if DenominatorDefinitionColumn !in row {
        return Err(MissingField(DenominatorDefinitionColumn));
      }
      ExtendRendering(render, measure, text, emitted, Denominator(den));
      text := text + render(Denominator(row[DenominatorDefinitionColumn]));
    }
    emitted := AppendIf(emitted, p.denominator, Denominator(den));
    if p.numerator {
      if NumeratorDefinitionColumn !in row {
        return Err(MissingField(NumeratorDefinitionColumn));
      }
      ExtendRendering(render, measure, text, emitted, Numerator(num));
      text := text + render(Numerator(row[NumeratorDefinitionColumn]));
    }
    emitted := AppendIf(emitted, p.numerator, Numerator(num));
    PopulationClausesAsAppends(p, den, num);
    return Ok(text);
  }

  /**
   * The scan of `parse_cql`, one pattern check after another: the record of
   * the text, or the error the source raises.
   */
  method ScanCql(s: string) returns (r: Result<ParsedCql, ParseError>)
    ensures r == Parse(s)
  {
    var templateOnly := TemplateOnly(s);
    var identity := IdentifyLibrary(s);
    if identity.None? {
      assert Parse(s) == Err(MissingLibraryName);
      return Err(MissingLibraryName);
    }
    var libraryName := StripLogic(identity.value.name);
    var denominator := ContainsFolded(s, DenominatorDecl);
    var numerator := ContainsFolded(s, NumeratorDecl);
    var matches := FindAllDefines(s, StratifierSuffix, 0);
    var stratifiers := CollectKeys(matches);
    var initialPopulation := ContainsFolded(s, InitialPopulationDecl);
    var measurePopulation := ContainsFolded(s, MeasurePopulationDecl);
    var measureObservation := ContainsFolded(s, MeasureObservationDecl);
    var exclusions := FindAllDefines(s, PopulationExclusionSuffix, 0);
    if exclusions != [] {
      assert Parse(s) == Err(PopulationExclusionsKeyError);
      return Err(PopulationExclusionsKeyError);
    }
    var parsed := ParsedCql(
      libraryName := libraryName,
      isIndicator := identity.value.isIndicator,
      templateOnly := templateOnly,
      initialPopulation := initialPopulation,
      measurePopulation := measurePopulation,
      measureObservation := measureObservation,
      numerator := numerator,
      denominator := denominator,
      stratifiers := stratifiers);
    assert Parse(s) == Ok(parsed);
    return Ok(parsed);
  }

  /** Appends one stratifier clause per title, in order. */
  method AppendStratifiers(measure: string, titles: seq<string>, render: Clause -> string) returns (r: string)
    ensures r == measure + RenderAll(render, StratifierClauses(titles))
  {
    r := measure;
    for i := 0 to |titles|
      invariant r == measure + RenderAll(render, StratifierClauses(titles[..i]))
    {
      var index := titles[i];
      ExtendRendering(render, measure, r, StratifierClauses(titles[..i]), Stratifier(index));
      assert StratifierClauses(titles[..i + 1]) == StratifierClauses(titles[..i]) + [Stratifier(index)];
      r := r + render(Stratifier(index));
    }
    assert titles[..|titles|] == titles;
  }

  /**
   * Fills a dictionary by assigning every title in turn; its keys, in
   * insertion order, are the distinct titles in order of first appearance.
   */
  method CollectKeys(matches: seq<string>) returns (keys: seq<string>)
    ensures keys == DistinctInOrder(matches)
  {
    keys := [];
    for i := 0 to |matches|
      invariant keys == DistinctInOrder(matches[..i])
    {
      assert matches[..i + 1][..i] == matches[..i];
      if matches[i] !in keys {
        keys := keys + [matches[i]];
      }
    }
    assert matches[..|matches|] == matches;
  }

  /** `cs` extended by `c` when `b` holds. */
  function AppendIf(cs: seq<Clause>, b: bool, c: Clause): (r: seq<Clause>)
    ensures r == cs + (if b then [c] else [])
  {
    if b then cs + [c] else cs
  }

  /** The population clauses, as the five conditional appends produce them. */
  lemma {:induction false} PopulationClausesAsAppends(p: ParsedCql, den: string, num: string)
    ensures PopulationClauses(p, den, num) ==
      AppendIf(AppendIf(AppendIf(AppendIf(AppendIf([],
        p.initialPopulation, InitialPopulation),
        p.measurePopulation, MeasurePopulation),
        p.measureObservation, MeasureObservation),
        p.denominator, Denominator(den)),
        p.numerator, Numerator(num))
  {
    var ip: seq<Clause> := if p.initialPopulation then [InitialPopulation] else [];
    PopulationClausesByFlags(p, den, num);
    assert [] + ip == ip;
  }

  /** Appending one clause's text to a rendering extends it by that clause. */
  lemma ExtendRendering(render: Clause -> string, measure: string, text: string, cs: seq<Clause>, c: Clause)
    requires text == measure + RenderAll(render, cs)
    ensures text + render(c) == measure + RenderAll(render, cs + [c])
  {
    assert (cs + [c])[..|cs|] == cs;
  }

  /** Rendering a concatenation renders the two parts one after the other. */
  lemma {:induction false} RenderAllConcat(render: Clause -> string, a: seq<Clause>, b: seq<Clause>)
    ensures RenderAll(render, a + b) == RenderAll(render, a) + RenderAll(render, b)
    decreases |b|
  {
    if b == [] {
      assert a + b == a;
    } else {
      var init := b[..|b| - 1];
      assert (a + b)[..|a + b| - 1] == a + init;
      RenderAllConcat(render, a, init);
    }
  }
}
