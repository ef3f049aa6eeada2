/**
 * The FSH templates of the translator. They are a compatibility contract with
 * the FSH compiler downstream, so their text is kept character for character.
 * A template is a sequence of literal pieces and named placeholders, and
 * `Fill` is `str.format` with keyword arguments: each placeholder is replaced
 * by its argument, which is inserted as literal text and never re-read as
 * template syntax.
 */
module FshTemplates {
  import opened Text

  /** A piece of a template: literal text or a `{name}` placeholder. */
  datatype Piece = Lit(text: string) | Arg(name: string)

  /** Whether every placeholder of the template has an argument. */
  predicate Bound(pieces: seq<Piece>, args: map<string, string>) {
    forall k :: 0 <= k < |pieces| && pieces[k].Arg? ==> pieces[k].name in args
  }

  /** The text of one piece; an unbound placeholder cannot occur (see `Bound`). */
  function PieceText(piece: Piece, args: map<string, string>): string {
    match piece
    case Lit(text) => text
    case Arg(name) => if name in args then args[name] else ""
  }

  /** The template with every placeholder replaced by its argument. */
  function Fill(pieces: seq<Piece>, args: map<string, string>): string {
    if pieces == [] then "" else PieceText(pieces[0], args) + Fill(pieces[1..], args)
  }

  /** Filling a template from its `k`-th piece: that piece's text, then the rest. */
  lemma FillStep(pieces: seq<Piece>, k: nat, args: map<string, string>)
    requires k < |pieces|
    ensures Fill(pieces[k..], args) == PieceText(pieces[k], args) + Fill(pieces[k + 1..], args)
  {
    assert pieces[k..][1..] == pieces[k + 1..];
  }

  /** The Library resource, `library_fsh_template` in cql_resource_generator.py (lines 13-33). */
  const LibraryPieces: seq<Piece> := [
    Lit("\nInstance: "),
    Arg("library_name"),
    Lit("\nInstanceOf: Library\nTitle: \""),
    Arg("title"),
    Lit(" Logic\"\nDescription: \""),
    Arg("description"),
    Lit("\"\nUsage: #definition\n* meta.profile[+] = \"http://hl7.org/fhir/uv/crmi/StructureDefinition/crmi-shareablelibrary\"\n* meta.profile[+] = \"http://hl7.org/fhir/uv/crmi/StructureDefinition/crmi-publishablelibrary\"\n* meta.profile[+] = \"http://hl7.org/fhir/uv/cql/StructureDefinition/cql-library\"\n* meta.profile[+] = \"http://hl7.org/fhir/uv/cql/StructureDefinition/cql-module\"\n* url = \"http://smart.who.int/"),
    Arg("dak_name"),
    Lit("/Library/"),
    Arg("library_name"),
    Lit("\"\n* extension[+]\n  * url = \"http://hl7.org/fhir/StructureDefinition/cqf-knowledgeCapability\"\n  * valueCode = #computable\n* name = \""),
    Arg("library_name"),
    Lit("\"\n* status = #draft\n* experimental = true\n* publisher = \"World Health Organization (WHO)\"\n* type = $library-type#logic-library\n* content.id = \"ig-loader-"),
    Arg("library_name"),
    Lit(".cql\"\n")
  ]

  function LibraryTemplate(libraryName: string, title: string, description: string, dakName: string): string {
    Fill(LibraryPieces, map["library_name" := libraryName, "title" := title, "description" := description, "dak_name" := dakName])
  }

  /** The Measure header, `measure_fsh_template` in cql_resource_generator.py (lines 35-51). */
  const MeasurePieces: seq<Piece> := [
    Lit("\nInstance: "),
    Arg("measure_name"),
    Lit("\nInstanceOf: "),
    Arg("measure_instance"),
    Lit("\nTitle: \""),
    Arg("title"),
    Lit("\"\n* meta.profile[+] = \"http://hl7.org/fhir/uv/crmi/StructureDefinition/crmi-shareablemeasure\"\n* meta.profile[+] = \"http://hl7.org/fhir/uv/crmi/StructureDefinition/crmi-publishablemeasure\"\n* extension[http://hl7.org/fhir/us/cqfmeasures/StructureDefinition/cqfm-populationBasis].valueCode = #boolean\n* description = \""),
    Arg("description"),
    Lit("\"\n* url = \"http://smart.who.int/"),
    Arg("dak_name"),
    Lit("/Measure/"),
    Arg("measure_name"),
    Lit("\"\n* status = #draft\n* experimental = true\n* date = \""),
    Arg("date"),
    Lit("\"\n* name = \""),
    Arg("measure_name"),
    Lit("\"\n* title = \""),
    Arg("title"),
    Lit("\"\n* publisher = \"World Health Organization (WHO)\"\n* library = \"http://smart.who.int/"),
    Arg("dak_name"),
    Lit("/Library/"),
    Arg("measure_name"),
    Lit("Logic\"\n")
  ]

  function MeasureTemplate(measureName: string, measureInstance: string, title: string, description: string, dakName: string, date: string): string {
    Fill(MeasurePieces, map["measure_name" := measureName, "measure_instance" := measureInstance, "title" := title, "description" := description, "dak_name" := dakName, "date" := date])
  }

  /** A template that opens with three literals, each followed by a bound placeholder. */
  lemma FillOpening(pieces: seq<Piece>, args: map<string, string>, a: string, k1: string, b: string, k2: string, c: string, k3: string)
    requires |pieces| >= 6 && k1 in args && k2 in args && k3 in args
    requires pieces[0] == Lit(a) && pieces[1] == Arg(k1) && pieces[2] == Lit(b)
    requires pieces[3] == Arg(k2) && pieces[4] == Lit(c) && pieces[5] == Arg(k3)
    ensures Fill(pieces, args)
      == a + (args[k1] + (b + (args[k2] + (c + (args[k3] + Fill(pieces[6..], args))))))
  {
    FillStep(pieces, 5, args);
    FillStep(pieces, 4, args);
    FillStep(pieces, 3, args);
    FillStep(pieces, 2, args);
    FillStep(pieces, 1, args);
    FillStep(pieces, 0, args);
    assert pieces[0..] == pieces;
  }

  /** The first six pieces of the Measure header, filled from any arguments that bind them. */
  lemma MeasurePiecesOpen(args: map<string, string>)
    requires "measure_name" in args && "measure_instance" in args && "title" in args
    ensures Fill(MeasurePieces, args)
      == "\nInstance: " + (args["measure_name"] + ("\nInstanceOf: " + (args["measure_instance"]
         + ("\nTitle: \"" + (args["title"] + Fill(MeasurePieces[6..], args))))))
  {
    var pieces := MeasurePieces;
    assert pieces[0] == Lit("\nInstance: ") && pieces[1] == Arg("measure_name") && pieces[2] == Lit("\nInstanceOf: ");
    assert pieces[3] == Arg("measure_instance") && pieces[4] == Lit("\nTitle: \"") && pieces[5] == Arg("title");
    FillOpening(pieces, args, "\nInstance: ", "measure_name", "\nInstanceOf: ", "measure_instance", "\nTitle: \"", "title");
  }

  /** The Measure header opens with the instance line, the resource type and the title. */
  lemma MeasureTemplateOpens(measureName: string, measureInstance: string, title: string, description: string, dakName: string, date: string)
    ensures "\nInstance: " + measureName + "\nInstanceOf: " + measureInstance + "\nTitle: \"" + title
      <= MeasureTemplate(measureName, measureInstance, title, description, dakName, date)
  {
    var args := map["measure_name" := measureName, "measure_instance" := measureInstance, "title" := title,
                    "description" := description, "dak_name" := dakName, "date" := date];
    assert args["measure_name"] == measureName by {
      assert "measure_name" != "measure_instance" && "measure_name" != "title" && "measure_name" != "description";
      assert "measure_name" != "dak_name" && "measure_name" != "date";
    }
    assert args["measure_instance"] == measureInstance by {
      assert "measure_instance" != "title" && "measure_instance" != "description";
      assert "measure_instance" != "dak_name" && "measure_instance" != "date";
    }
    assert args["title"] == title;
    MeasurePiecesOpen(args);
    var rest := Fill(MeasurePieces[6..], args);
    var head := "\nInstance: " + measureName + "\nInstanceOf: " + measureInstance;
    Regroup("\nInstance: ", measureName, "\nInstanceOf: ", measureInstance, "\nTitle: \"" + (title + rest));
    Regroup(head, "\nTitle: \"", title, rest, "");
    assert rest + "" == rest;
  }

  /** The scoring line, `measure_scoring_fsh_template` in cql_resource_generator.py (lines 55-57). */
  const ScoringPieces: seq<Piece> := [
    Lit("\n* scoring = $measure-scoring#"),
    Arg("scoring"),
    Lit(" \""),
    Arg("scoring_title"),
    Lit("\"\n")
  ]

  function ScoringTemplate(scoring: string, scoringTitle: string): string {
    Fill(ScoringPieces, map["scoring" := scoring, "scoring_title" := scoringTitle])
  }

  /** The Initial Population clause, `measure_initial_population_fsh_template` in cql_resource_generator.py (lines 59-66). */
  const InitialPopulationPieces: seq<Piece> := [
    Lit("\n  * population[initialPopulation]\n    * id = \""),
    Arg("dak_id"),
    Lit(".IP\"\n    * description = \"Initial Population\"\n    * code = $measure-population#initial-population \"Initial Population\"\n    * criteria.language = #text/cql-identifier\n    * criteria.expression = \"Initial Population\"\n")
  ]

  function InitialPopulationTemplate(dakId: string): string {
    Fill(InitialPopulationPieces, map["dak_id" := dakId])
  }

  /** The Measure Population clause, `measure_measure_population_fsh_template` in cql_resource_generator.py (lines 68-76). */
  const MeasurePopulationPieces: seq<Piece> := [
    Lit("\n  * population[measurePopulation]\n    * extension[http://hl7.org/fhir/us/cqfmeasures/StructureDefinition/cqfm-populationBasis].valueCode = #boolean\n    * id = \""),
    Arg("dak_id"),
    Lit(".MP\"\n    * description = \"Measure Population\"\n    * code = $measure-population#measure-population \"Measure Population\"\n    * criteria.language = #text/cql-identifier\n    * criteria.expression = \"Measure Population\"\n")
  ]

  function MeasurePopulationTemplate(dakId: string): string {
    Fill(MeasurePopulationPieces, map["dak_id" := dakId])
  }

  /** The Measure Observation clause, `measure_measure_observation_fsh_template` in cql_resource_generator.py (lines 78-87). */
  const MeasureObservationPieces: seq<Piece> := [
    Lit("\n  * population[measureObservation]\n    * extension[http://hl7.org/fhir/us/cqfmeasures/StructureDefinition/cqfm-criteriaReference].valueString = \"measure-population\"\n    * extension[http://hl7.org/fhir/us/cqfmeasures/StructureDefinition/cqfm-aggregateMethod].valueCode = #count\n    * id = \""),
    Arg("dak_id"),
    Lit(".MO\"\n    * description = \"Measure Observation\"\n    * code = $measure-population#measure-observation \"Measure Observation\"\n    * criteria.language = #text/cql-identifier\n    * criteria.expression = \"Measure Observation\"\n")
  ]

  function MeasureObservationTemplate(dakId: string): string {
    Fill(MeasureObservationPieces, map["dak_id" := dakId])
  }

  /** The Denominator clause, `measure_denominator_fsh_template` in cql_resource_generator.py (lines 89-96). */
  const DenominatorPieces: seq<Piece> := [
    Lit("\n  * population[denominator]\n    * id = \""),
    Arg("dak_id"),
    Lit(".DEN\"\n    * description = \""),
    Arg("description"),
    Lit("\"\n    * code = $measure-population#denominator \"Denominator\"\n    * criteria.language = #text/cql-identifier\n    * criteria.expression = \"Denominator\"\n")
  ]

  function DenominatorTemplate(dakId: string, description: string): string {
    Fill(DenominatorPieces, map["dak_id" := dakId, "description" := description])
  }

  /** The Numerator clause, `measure_numerator_fsh_template` in cql_resource_generator.py (lines 98-105). */
  const NumeratorPieces: seq<Piece> := [
    Lit("\n  * population[numerator]\n    * id = \""),
    Arg("dak_id"),
    Lit(".NUM\"\n    * description = \""),
    Arg("description"),
    Lit("\"\n    * code = $measure-population#numerator \"Numerator\"\n    * criteria.language = #text/cql-identifier\n    * criteria.expression = \"Numerator\"\n")
  ]

  function NumeratorTemplate(dakId: string, description: string): string {
    Fill(NumeratorPieces, map["dak_id" := dakId, "description" := description])
  }

  /** A stratifier clause, `measure_stratifier_fsh_template` in cql_resource_generator.py (lines 107-112). */
  const StratifierPieces: seq<Piece> := [
    Lit("\n  * stratifier[+]\n    * id = \""),
    Arg("dak_id"),
    Lit(".S."),
    Arg("strat_code"),
    Lit("\"\n    * criteria.language = #text/cql-identifier\n    * criteria.expression = \""),
    Arg("index"),
    Lit("\"\n")
  ]

  function StratifierTemplate(dakId: string, stratCode: string, index: string): string {
    Fill(StratifierPieces, map["dak_id" := dakId, "strat_code" := stratCode, "index" := index])
  }

  /**
   * Every placeholder of every template has an argument, so no `str.format`
   * call of the translator fails and the fallback of `PieceText` is unused.
   */
  lemma TemplatesAreBound(a: string, b: string, c: string, d: string, e: string, f: string)
    ensures Bound(LibraryPieces, map["library_name" := a, "title" := b, "description" := c, "dak_name" := d])
    ensures Bound(MeasurePieces, map["measure_name" := a, "measure_instance" := b, "title" := c,
                                     "description" := d, "dak_name" := e, "date" := f])
    ensures Bound(ScoringPieces, map["scoring" := a, "scoring_title" := b])
    ensures Bound(InitialPopulationPieces, map["dak_id" := a])
    ensures Bound(MeasurePopulationPieces, map["dak_id" := a])
    ensures Bound(MeasureObservationPieces, map["dak_id" := a])
    ensures Bound(DenominatorPieces, map["dak_id" := a, "description" := b])
    ensures Bound(NumeratorPieces, map["dak_id" := a, "description" := b])
    ensures Bound(StratifierPieces, map["dak_id" := a, "strat_code" := b, "index" := c])
  {
  }

  /** The line that opens the population and stratifier group (line 337). */
  const GroupOpen := "\n* group[+]\n"
}
