/**
 * `generate_measure_fsh` as a specification: when a Measure is produced, the
 * clauses of its population and stratifier group, their order, and the text
 * that results once blank lines are dropped.
 */
module MeasureBuilder {
  import opened Wrappers
  import opened Text
  import opened LineText
  import opened CqlParser
  import opened IndicatorTable
  import opened FshTemplates
  import opened LibraryBuilder

  /**
   * What the external scoring resolver yields: the scoring code, its title
   * and the Measure instance type. An empty code is the resolver's
   * "undetermined" (a falsy `scoring` in the source).
   */
  datatype Scoring = Scoring(code: string, title: string, instance: string)

  /** One clause of the `group[+]` block. */
  datatype Clause =
    | InitialPopulation
    | MeasurePopulation
    | MeasureObservation
    | Denominator(description: string)
    | Numerator(description: string)
    | Stratifier(title: string)

  /** The position of a clause kind in the fixed emission order. */
  function Rank(c: Clause): nat {
    match c
    case InitialPopulation => 0
    case MeasurePopulation => 1
    case MeasureObservation => 2
    case Denominator(_) => 3
    case Numerator(_) => 4
    case Stratifier(_) => 5
  }

  /**
   * `"".join([word[0] for word in ws[:-1]]).upper()`: the upper-cased first
   * letter of every word but the last.
   */
  function InitialsButLast(ws: seq<string>): string
    requires forall k :: 0 <= k < |ws| ==> ws[k] != []
  {
    if |ws| <= 1 then "" else [ToUpper(ws[0][0])] + InitialsButLast(ws[1..])
  }

  /** One upper-cased initial per word, the last word excepted. */
  lemma {:induction false} InitialsButLastSpec(ws: seq<string>)
    requires forall k :: 0 <= k < |ws| ==> ws[k] != []
    ensures |InitialsButLast(ws)| == (if ws == [] then 0 else |ws| - 1)
    ensures forall k :: 0 <= k < |InitialsButLast(ws)| ==> InitialsButLast(ws)[k] == ToUpper(ws[k][0])
  {
    if |ws| > 1 {
      InitialsButLastSpec(ws[1..]);
    }
  }

  /**
   * The stratifier code of a title: the upper-cased first letters of every
   * whitespace-separated word except the last one.
   */
  function StratifierCode(title: string): string {
    var words := SplitWords(title);
    assert forall k :: 0 <= k < |words| ==> IsWord(words[k]);
    InitialsButLast(words)
  }

  /** One upper-cased initial per word of the title, the last word excepted. */
  lemma {:induction false} StratifierCodeOfTitle(title: string)
    ensures var words := SplitWords(title);
      |StratifierCode(title)| == (if words == [] then 0 else |words| - 1)
    ensures var words := SplitWords(title);
      forall k :: 0 <= k < |StratifierCode(title)| ==> IsWord(words[k]) && StratifierCode(title)[k] == ToUpper(words[k][0])
  {
    InitialsButLastSpec(SplitWords(title));
  }

  /**
   * The code of a title made of words and any whitespace separators: the
   * initials of its words, the last one excepted.
   */
  lemma {:induction false} StratifierCodeOfWords(gaps: seq<string>, ws: seq<string>)
    requires |ws| >= 1
    requires forall k :: 0 <= k < |ws| ==> IsWord(ws[k])
    requires Separators(gaps, |ws|)
    ensures |StratifierCode(Spaced(gaps, ws))| == |ws| - 1
    ensures forall k :: 0 <= k < |ws| - 1 ==> IsWord(ws[k]) && StratifierCode(Spaced(gaps, ws))[k] == ToUpper(ws[k][0])
  {
    SplitSpaced(gaps, ws);
    StratifierCodeOfTitle(Spaced(gaps, ws));
  }

  /** A title of three space-separated words: the initials of the first two. */
  lemma {:induction false} StratifierCodeOfThreeWords(a: string, b: string, c: string)
    requires IsWord(a) && IsWord(b) && IsWord(c)
    ensures StratifierCode(a + " " + b + " " + c) == [ToUpper(a[0]), ToUpper(b[0])]
  {
    var ws := [a, b, c];
    JoinThreeWords(a, b, c);
    SplitJoinWords(ws);
    InitialsButLastSpec(ws);
  }

  /** Three words joined by single spaces. */
  lemma JoinThreeWords(a: string, b: string, c: string)
    ensures JoinWords([a, b, c]) == a + " " + b + " " + c
  {
    var ws := [a, b, c];
    var t := [b, c];
    assert ws[1..] == t && t[1..] == [c];
    assert JoinWords(t) == b + " " + c;
    assert JoinWords(ws) == a + " " + (b + " " + c);
    assert a + " " + (b + " " + c) == a + " " + b + " " + c;
  }

  /** A title of four space-separated words: the initials of the first three. */
  lemma {:induction false} StratifierCodeOfFourWords(a: string, b: string, c: string, d: string)
    requires IsWord(a) && IsWord(b) && IsWord(c) && IsWord(d)
    ensures StratifierCode(a + " " + b + " " + c + " " + d) == [ToUpper(a[0]), ToUpper(b[0]), ToUpper(c[0])]
  {
    var ws := [a, b, c, d];
    var t := [b, c, d];
    var u := [c, d];
    assert ws[1..] == t && t[1..] == u && u[1..] == [d];
    assert JoinWords(u) == c + " " + d;
    assert JoinWords(t) == b + " " + (c + " " + d);
    assert JoinWords(ws) == a + " " + (b + " " + (c + " " + d));
    assert a + " " + (b + " " + (c + " " + d)) == a + " " + b + " " + c + " " + d;
    SplitJoinWords(ws);
    InitialsButLastSpec(ws);
  }

  /** `Age And Sex Stratifier` has the code `AAS`. */
  lemma StratifierCodeOfAgeAndSex()
    ensures StratifierCode("Age And Sex Stratifier") == "AAS"
  {
    assert IsWord("Age") && IsWord("And") && IsWord("Sex") && IsWord("Stratifier");
    StratifierCodeOfFourWords("Age", "And", "Sex", "Stratifier");
    assert "Age" + " " + "And" + " " + "Sex" + " " + "Stratifier" == "Age And Sex Stratifier";
  }

  /** `Region Stratifier` has the code `R`. */
  lemma StratifierCodeOfRegion()
    ensures StratifierCode("Region Stratifier") == "R"
  {
    var ws := ["Region", "Stratifier"];
    assert IsWord("Region") && IsWord("Stratifier");
    assert ws[1..] == ["Stratifier"];
    assert JoinWords(ws) == "Region Stratifier";
    SplitJoinWords(ws);
    InitialsButLastSpec(ws);
  }

  /** `Age Group Stratifier` has the code `AG`. */
  lemma StratifierCodeOfAgeGroup()
    ensures StratifierCode("Age Group Stratifier") == "AG"
  {
    assert IsWord("Age") && IsWord("Group") && IsWord("Stratifier");
    StratifierCodeOfThreeWords("Age", "Group", "Stratifier");
    assert "Age" + " " + "Group" + " " + "Stratifier" == "Age Group Stratifier";
  }

  /** `Area Group Stratifier` has the code `AG` too. */
  lemma StratifierCodeOfAreaGroup()
    ensures StratifierCode("Area Group Stratifier") == "AG"
  {
    assert IsWord("Area") && IsWord("Group") && IsWord("Stratifier");
    StratifierCodeOfThreeWords("Area", "Group", "Stratifier");
    assert "Area" + " " + "Group" + " " + "Stratifier" == "Area Group Stratifier";
  }

  /**
   * Codes are not unique: two titles that differ only in a leading word with
   * the same initial are distinct but get the same code, and so the same
   * stratifier id (`Age Group Stratifier` and `Area Group Stratifier` above).
   */
  lemma StratifierCodesCollide(a: string, b: string, c: string, d: string)
    requires IsWord(a) && IsWord(b) && IsWord(c) && IsWord(d)
    requires a != b && a[0] == b[0]
    ensures a + " " + c + " " + d != b + " " + c + " " + d
    ensures StratifierCode(a + " " + c + " " + d) == StratifierCode(b + " " + c + " " + d)
  {
    StratifierCodeOfThreeWords(a, c, d);
    StratifierCodeOfThreeWords(b, c, d);
    JoinThreeWords(a, c, d);
    JoinThreeWords(b, c, d);
    SplitJoinWords([a, c, d]);
    SplitJoinWords([b, c, d]);
    assert [a, c, d] != [b, c, d] by {
      assert [a, c, d][0] != [b, c, d][0];
    }
  }

  /** The condition under which the `group[+]` block is opened at all. */
  predicate HasGroup(p: ParsedCql) {
    p.stratifiers != [] || p.initialPopulation || p.measurePopulation || p.denominator || p.numerator
  }

  /** One stratifier clause per title, in the record's order. */
  function StratifierClauses(titles: seq<string>): (r: seq<Clause>)
    ensures |r| == |titles|
    ensures forall k :: 0 <= k < |titles| ==> r[k] == Stratifier(titles[k])
  {
    seq(|titles|, k requires 0 <= k < |titles| => Stratifier(titles[k]))
  }

  /** Whether the record's flags select a clause of this kind. */
  predicate Selected(p: ParsedCql, c: Clause) {
    match c
    case InitialPopulation => p.initialPopulation
    case MeasurePopulation => p.measurePopulation
    case MeasureObservation => p.measureObservation
    case Denominator(_) => p.denominator
    case Numerator(_) => p.numerator
    case Stratifier(_) => true
  }

  /** Clauses in strictly increasing rank: each kind at most once, in the fixed order. */
  predicate RankSorted(cs: seq<Clause>) {
    forall a, b :: 0 <= a < b < |cs| ==> Rank(cs[a]) < Rank(cs[b])
  }

  /** The clauses of `cs` that the flags select, in the order of `cs`. */
  function Select(p: ParsedCql, cs: seq<Clause>): seq<Clause> {
    if cs == [] then []
    else (if Selected(p, cs[0]) then [cs[0]] else []) + Select(p, cs[1..])
  }

  /** The selected clauses are exactly those of `cs` whose flag is set. */
  lemma {:induction false} SelectMembers(p: ParsedCql, cs: seq<Clause>)
    ensures forall c :: c in Select(p, cs) <==> c in cs && Selected(p, c)
  {
    if cs != [] {
      SelectMembers(p, cs[1..]);
      assert forall c :: c in cs <==> c == cs[0] || c in cs[1..];
    }
  }

  /** Selecting keeps the order of the clauses selected from. */
  lemma {:induction false} SelectKeepsOrder(p: ParsedCql, cs: seq<Clause>)
    requires RankSorted(cs)
    ensures RankSorted(Select(p, cs))
  {
    if cs != [] {
      var rest := Select(p, cs[1..]);
      SelectMembers(p, cs[1..]);
      assert RankSorted(cs[1..]) by {
        forall a, b | 0 <= a < b < |cs[1..]| ensures Rank(cs[1..][a]) < Rank(cs[1..][b]) {
          assert cs[1..][a] == cs[a + 1] && cs[1..][b] == cs[b + 1];
        }
      }
      SelectKeepsOrder(p, cs[1..]);
      forall c | c in rest ensures Rank(cs[0]) < Rank(c) {
        var j :| 0 <= j < |cs[1..]| && cs[1..][j] == c;
        assert cs[j + 1] == c;
      }
      var head := if Selected(p, cs[0]) then [cs[0]] else [];
      forall a, b | 0 <= a < b < |head + rest| ensures Rank((head + rest)[a]) < Rank((head + rest)[b]) {
        if a < |head| {
          assert (head + rest)[b] in rest;
        } else {
          assert (head + rest)[a] == rest[a - |head|] && (head + rest)[b] == rest[b - |head|];
        }
      }
    }
  }

  /** Every population clause kind once, in the fixed order IP, MP, MO, DEN, NUM. */
  function PopulationOrder(den: string, num: string): (r: seq<Clause>)
    ensures RankSorted(r)
    ensures forall c :: c in r ==> !c.Stratifier?
    ensures forall c :: c in r && c.Denominator? ==> c == Denominator(den)
    ensures forall c :: c in r && c.Numerator? ==> c == Numerator(num)
    ensures InitialPopulation in r && MeasurePopulation in r && MeasureObservation in r
    ensures Denominator(den) in r && Numerator(num) in r
  {
    [InitialPopulation, MeasurePopulation, MeasureObservation, Denominator(den), Numerator(num)]
  }

  /** The population clauses whose flags are set, in the fixed order. */
  function PopulationClauses(p: ParsedCql, den: string, num: string): (r: seq<Clause>)
    ensures forall c :: c in r <==> c in PopulationOrder(den, num) && Selected(p, c)
    ensures RankSorted(r)
  {
    SelectMembers(p, PopulationOrder(den, num));
    SelectKeepsOrder(p, PopulationOrder(den, num));
    Select(p, PopulationOrder(den, num))
  }

  /** Selecting from a clause followed by more clauses. */
  lemma SelectCons(p: ParsedCql, c: Clause, cs: seq<Clause>)
    ensures Select(p, [c] + cs) == (if Selected(p, c) then [c] else []) + Select(p, cs)
  {
    assert ([c] + cs)[1..] == cs;
  }

  /** The population clauses are the set flags' clauses, concatenated in the fixed order. */
  lemma {:induction false} PopulationClausesByFlags(p: ParsedCql, den: string, num: string)
    ensures PopulationClauses(p, den, num) ==
      (if p.initialPopulation then [InitialPopulation] else [])
      + (if p.measurePopulation then [MeasurePopulation] else [])
      + (if p.measureObservation then [MeasureObservation] else [])
      + (if p.denominator then [Denominator(den)] else [])
      + (if p.numerator then [Numerator(num)] else [])
  {
    var ip := if p.initialPopulation then [InitialPopulation] else [];
    var mp := if p.measurePopulation then [MeasurePopulation] else [];
    var mo := if p.measureObservation then [MeasureObservation] else [];
    var dn := if p.denominator then [Denominator(den)] else [];
    var nm := if p.numerator then [Numerator(num)] else [];
    var t4: seq<Clause> := [Numerator(num)];
    var t3 := [Denominator(den)] + t4;
    var t2 := [MeasureObservation] + t3;
    var t1 := [MeasurePopulation] + t2;
    var t0 := [InitialPopulation] + t1;
    assert t0 == PopulationOrder(den, num);
    SelectCons(p, Numerator(num), []);
    assert [Numerator(num)] + [] == t4;
    var s4 := Select(p, t4);
    assert s4 == nm;
    SelectCons(p, Denominator(den), t4);
    var s3 := Select(p, t3);
    assert s3 == dn + nm;
    SelectCons(p, MeasureObservation, t3);
    var s2 := Select(p, t2);
    assert s2 == mo + (dn + nm);
    SelectCons(p, MeasurePopulation, t2);
    var s1 := Select(p, t1);
    assert s1 == mp + (mo + (dn + nm));
    SelectCons(p, InitialPopulation, t1);
    assert Select(p, t0) == ip + (mp + (mo + (dn + nm)));
    Regroup(ip, mp, mo, dn, nm);
  }

  /**
   * The clauses of the group block: one per set population flag, each kind at
   * most once and in the fixed order, then one per stratifier in order.
   */
  function GroupClauses(p: ParsedCql, den: string, num: string): (r: seq<Clause>)
    ensures InitialPopulation in r <==> p.initialPopulation
    ensures MeasurePopulation in r <==> p.measurePopulation
    ensures MeasureObservation in r <==> p.measureObservation
    ensures Denominator(den) in r <==> p.denominator
    ensures Numerator(num) in r <==> p.numerator
    ensures forall c :: c in r && c.Denominator? ==> c == Denominator(den)
    ensures forall c :: c in r && c.Numerator? ==> c == Numerator(num)
    ensures forall a, b :: 0 <= a < b < |r| ==>
      Rank(r[a]) < Rank(r[b]) || (r[a].Stratifier? && r[b].Stratifier?)
    ensures |p.stratifiers| <= |r|
    ensures forall k :: 0 <= k < |r| - |p.stratifiers| ==> !r[k].Stratifier?
    ensures forall k :: 0 <= k < |p.stratifiers| ==> r[|r| - |p.stratifiers| + k] == Stratifier(p.stratifiers[k])
  {
    var pops := PopulationClauses(p, den, num);
    var strats := StratifierClauses(p.stratifiers);
    assert forall c :: c in strats ==> c.Stratifier?;
    assert forall k :: 0 <= k < |pops| ==> pops[k] in PopulationOrder(den, num);
    pops + strats
  }

  /**
   * The clauses actually emitted: the group is opened only when a stratifier
   * or one of the IP, MP, DEN and NUM flags is present, so a Measure
   * Observation on its own emits nothing.
   */
  function EmittedClauses(p: ParsedCql, den: string, num: string): (r: seq<Clause>)
    ensures r != [] <==> HasGroup(p)
    ensures MeasureObservation in r <==> p.measureObservation && HasGroup(p)
    ensures HasGroup(p) ==> r == GroupClauses(p, den, num)
  {
    if HasGroup(p) then
      var r := GroupClauses(p, den, num);
      assert p.stratifiers != [] ==> r[|r| - |p.stratifiers|].Stratifier?;
      r
    else []
  }

  /** A record whose only population is the denominator emits exactly one clause. */
  lemma {:induction false} OnlyDenominatorClause(p: ParsedCql, den: string, num: string)
    requires p.denominator && !p.numerator && !p.initialPopulation && !p.measurePopulation
    requires !p.measureObservation && p.stratifiers == []
    ensures EmittedClauses(p, den, num) == [Denominator(den)]
  {
    var order := PopulationOrder(den, num);
    assert Select(p, order[4..]) == [] by {
      assert order[4..][1..] == [];
    }
    assert Select(p, order[3..]) == [Denominator(den)] by {
      assert order[3..][1..] == order[4..];
    }
    assert Select(p, order[2..]) == [Denominator(den)] by {
      assert order[2..][1..] == order[3..];
    }
    assert Select(p, order[1..]) == [Denominator(den)] by {
      assert order[1..][1..] == order[2..];
    }
    assert PopulationClauses(p, den, num) == [Denominator(den)];
  }

  /** The rendered FSH text of one clause: its template filled with the DAK ID and, for DEN and NUM, the definition. */
  function RenderClause(dakId: string, c: Clause): string {
    match c
    case InitialPopulation => InitialPopulationTemplate(dakId)
    case MeasurePopulation => MeasurePopulationTemplate(dakId)
    case MeasureObservation => MeasureObservationTemplate(dakId)
    case Denominator(description) => DenominatorTemplate(dakId, description)
    case Numerator(description) => NumeratorTemplate(dakId, description)
    case Stratifier(title) => StratifierTemplate(dakId, StratifierCode(title), title)
  }

  /** Every clause rendered by `render`, one after another, in order. */
  function RenderAll(render: Clause -> string, cs: seq<Clause>): string
    decreases |cs|
  {
    if cs == [] then "" else RenderAll(render, cs[..|cs| - 1]) + render(cs[|cs| - 1])
  }

  /** The rendering of single clauses for a Measure with this DAK ID. */
  function ClauseRenderer(dakId: string): Clause -> string {
    c => RenderClause(dakId, c)
  }

  /** The clauses of a Measure rendered with its DAK ID. */
  function RenderClauses(dakId: string, cs: seq<Clause>): string {
    RenderAll(ClauseRenderer(dakId), cs)
  }

  /** The group block: empty, or the opening line followed by the clauses. */
  function GroupBlock(dakId: string, cs: seq<Clause>): string {
    if cs == [] then "" else GroupOpen + RenderClauses(dakId, cs)
  }

  /** The columns of an indicator row that a Measure with these flags reads. */
  predicate HasMeasureColumns(p: ParsedCql, row: Row) {
    && DakIdColumn in row
    && ShortNameColumn in row
    && IndicatorDefinitionColumn in row
    && (p.denominator ==> DenominatorDefinitionColumn in row)
    && (p.numerator ==> NumeratorDefinitionColumn in row)
  }

  /** The cell of a column that may be absent; absent cells are never rendered. */
  function CellOrEmpty(row: Row, column: string): string {
    if column in row then row[column] else ""
  }

  /**
   * The Measure before blank lines are dropped: header, scoring line, and the
   * group block. The Measure's name is the DAK ID without dots and its title
   * the DAK ID and the short name.
   */
  function MeasureText(p: ParsedCql, row: Row, scoring: Scoring, date: string): string
    requires HasMeasureColumns(p, row)
  {
    MeasureHeader(p, row, scoring, date) + ScoringTemplate(scoring.code, scoring.title)
      + GroupBlock(row[DakIdColumn], EmittedClauses(p, CellOrEmpty(row, DenominatorDefinitionColumn),
                                                    CellOrEmpty(row, NumeratorDefinitionColumn)))
  }

  /**
   * The Measure header: its name is the DAK ID without dots, its title the
   * DAK ID and the short name, its description the indicator definition.
   */
  function MeasureHeader(p: ParsedCql, row: Row, scoring: Scoring, date: string): string
    requires DakIdColumn in row && ShortNameColumn in row && IndicatorDefinitionColumn in row
  {
    var dakId := row[DakIdColumn];
    MeasureTemplate(RemoveChar(dakId, '.'), scoring.instance, dakId + " " + row[ShortNameColumn],
      row[IndicatorDefinitionColumn], DakName(p.libraryName), date)
  }

  /**
   * The Measure header opens with its instance line, named by the DAK ID
   * without dots, then its resource type and its title, the DAK ID and the
   * short name.
   */
  lemma MeasureHeaderOpens(p: ParsedCql, row: Row, scoring: Scoring, date: string)
    requires DakIdColumn in row && ShortNameColumn in row && IndicatorDefinitionColumn in row
    ensures var name := RemoveChar(row[DakIdColumn], '.');
      && '.' !in name
      && "\nInstance: " + name + "\nInstanceOf: " + scoring.instance + "\nTitle: \""
           + row[DakIdColumn] + " " + row[ShortNameColumn] <= MeasureHeader(p, row, scoring, date)
  {
    var dakId := row[DakIdColumn];
    MeasureTemplateOpens(RemoveChar(dakId, '.'), scoring.instance, dakId + " " + row[ShortNameColumn],
      row[IndicatorDefinitionColumn], DakName(p.libraryName), date);
  }

  /** The scoring line starts a line with `*`, so it is not blank. */
  lemma ScoringLineNotBlank(scoring: string, scoringTitle: string)
    ensures |ScoringTemplate(scoring, scoringTitle)| > 1 && ScoringTemplate(scoring, scoringTitle)[1] == '*'
  {
    var args := map["scoring" := scoring, "scoring_title" := scoringTitle];
    assert ScoringTemplate(scoring, scoringTitle) == PieceText(ScoringPieces[0], args) + Fill(ScoringPieces[1..], args);
  }

  /** A text holding a non-whitespace character anywhere is not blank. */
  lemma NotBlankAround(a: string, b: string, c: string, k: nat)
    requires k < |b| && !IsSpace(b[k])
    ensures !IsBlank(a + b + c)
  {
    assert (a + b + c)[|a| + k] == b[k];
  }

  /** The Measure text always holds the scoring line, so it is never blank. */
  lemma {:induction false} MeasureTextNotBlank(p: ParsedCql, row: Row, scoring: Scoring, date: string)
    requires HasMeasureColumns(p, row)
    ensures !IsBlank(MeasureText(p, row, scoring, date))
  {
    ScoringLineNotBlank(scoring.code, scoring.title);
    NotBlankAround(MeasureHeader(p, row, scoring, date), ScoringTemplate(scoring.code, scoring.title),
      GroupBlock(row[DakIdColumn], EmittedClauses(p, CellOrEmpty(row, DenominatorDefinitionColumn),
                                                  CellOrEmpty(row, NumeratorDefinitionColumn))), 1);
  }

  /**
   * The Measure for the indicator's row: a lookup failure for a missing
   * column, no Measure when the scoring is undetermined, and otherwise the
   * rendered text without blank lines. The DAK ID, short name and indicator
   * definition are read before the scoring is resolved; the denominator and
   * numerator definitions only when their clauses are rendered.
   */
  function RowMeasure(p: ParsedCql, row: Row, scoring: Scoring, date: string)
    : (r: Result<Option<string>, FshError>)
    ensures DakIdColumn !in row ==> r == Err(MissingField(DakIdColumn))
    ensures DakIdColumn in row && ShortNameColumn !in row ==> r == Err(MissingField(ShortNameColumn))
    ensures DakIdColumn in row && ShortNameColumn in row && IndicatorDefinitionColumn !in row ==>
      r == Err(MissingField(IndicatorDefinitionColumn))
    ensures DakIdColumn in row && ShortNameColumn in row && IndicatorDefinitionColumn in row && scoring.code == "" ==> r == Ok(None)
    ensures r.Err? ==> r.error.MissingField? && !HasMeasureColumns(p, row)
    ensures !HasMeasureColumns(p, row) && scoring.code != "" ==> r.Err?
    ensures DakIdColumn in row && ShortNameColumn in row && IndicatorDefinitionColumn in row && scoring.code != "" ==>
      && (p.denominator && DenominatorDefinitionColumn !in row ==> r == Err(MissingField(DenominatorDefinitionColumn)))
      && (!(p.denominator && DenominatorDefinitionColumn !in row) && p.numerator && NumeratorDefinitionColumn !in row ==>
            r == Err(MissingField(NumeratorDefinitionColumn)))
    ensures r.Ok? && r.value.Some? ==>
      && scoring.code != "" && HasMeasureColumns(p, row)
      && r.value.value == DropBlankLines(MeasureText(p, row, scoring, date))
  {
    if DakIdColumn !in row then Err(MissingField(DakIdColumn))
    else if ShortNameColumn !in row then Err(MissingField(ShortNameColumn))
    else if IndicatorDefinitionColumn !in row then Err(MissingField(IndicatorDefinitionColumn))
    else if scoring.code == "" then Ok(None)
    else if p.denominator && DenominatorDefinitionColumn !in row then
      Err(MissingField(DenominatorDefinitionColumn))
    else if p.numerator && NumeratorDefinitionColumn !in row then
      Err(MissingField(NumeratorDefinitionColumn))
    else
      Ok(Some(DropBlankLines(MeasureText(p, row, scoring, date))))
  }

  /**
   * `generate_measure_fsh`: no Measure for a non-indicator or a template-only
   * text, a lookup failure when the dictionary has no row for the library
   * name, and otherwise the Measure for that row with the resolved scoring.
   */
  function MeasureFsh(p: ParsedCql, dict: IndicatorDictionary, resolve: ParsedCql -> Scoring, date: string)
    : (r: Result<Option<string>, FshError>)
    ensures !p.isIndicator || p.templateOnly == Some(true) ==> r == Ok(None)
    ensures p.isIndicator && p.templateOnly != Some(true) && p.libraryName !in dict ==>
      r == Err(MissingIndicator(p.libraryName))
    ensures p.isIndicator && p.templateOnly != Some(true) && p.libraryName in dict ==>
      r == RowMeasure(p, dict[p.libraryName], resolve(p), date)
  {
    if !p.isIndicator || p.templateOnly == Some(true) then Ok(None)
    else if p.libraryName !in dict then Err(MissingIndicator(p.libraryName))
    else RowMeasure(p, dict[p.libraryName], resolve(p), date)
  }

  /** A Measure, when one is produced, is non-empty and has no blank line. */
  lemma {:induction false} MeasureHasNoBlankLines(p: ParsedCql, row: Row, scoring: Scoring, date: string)
    requires HasMeasureColumns(p, row) && scoring.code != ""
    ensures RowMeasure(p, row, scoring, date).Ok? && RowMeasure(p, row, scoring, date).value.Some?
    ensures var m := RowMeasure(p, row, scoring, date).value.value;
      && m != ""
      && forall k :: 0 <= k < |Lines(m)| ==> !IsBlank(Lines(m)[k])
  {
    var text := MeasureText(p, row, scoring, date);
    MeasureTextNotBlank(p, row, scoring, date);
    var m := DropBlankLines(text);
    assert m != "";
    assert RowMeasure(p, row, scoring, date).value.value == m;
  }
}
