# CQL resource generator, modelled in Dafny

This project models the core of the WHO L3 SMART tools' CQL resource
generator, `CqlResourceGenerator` in
`who_l3_smart_tools/core/cql_tools/cql_resource_generator.py`. The generator
takes the text of a CQL library and a dictionary of indicator rows, and does
three things:

- It scans the CQL text once into a parsed record. The record holds:
  - the library name: the first `HIV.IND.<digits>` identifier, or else the
    name declared on a line-initial `library` line, with one trailing `Logic`
    removed;
  - whether the library is an indicator;
  - the template-only marker;
  - five population flags;
  - the stratifier titles.
- From that record it renders a FHIR Shorthand (FSH) `Library` resource.
- For an indicator it also renders a `Measure` resource: a header, a scoring
  line, and a group block with one clause per population and per stratifier.
  Blank lines are then dropped.

Modules:

- `Text`: character classes, the scanners that stand in for the source's
  regular expressions, `str.replace`, `str.split` and `str.upper`.
- `LineText`: `split("\n")`, `"\n".join` and the blank-line filter.
- `CqlParser`: the parsed record and `Parse`, the specification of
  `parse_cql`.
- `IndicatorTable`: the indicator dictionary and its lookup errors.
- `FshTemplates`: the nine FSH templates. Each one is a sequence of literal
  pieces and named placeholders, and `Fill` plays the part of `str.format`.
- `LibraryBuilder`: `generate_library_fsh` as a specification.
- `MeasureBuilder`: `generate_measure_fsh` as a specification. It covers the
  clause selection and order, stratifier codes, the rendered text, and the
  error and "no Measure" paths.
- `CqlTools`: the class `CqlResourceGenerator`.
  - Its field `parsedCql` caches the parse.
  - `ParseCql` and `GenerateMeasureFsh` are imperative methods. Each is proved
    equal to its specification function.
  - The Measure is built by appending text, as the source does. The helper
    methods `MeasureForRow`, `AppendGroup`, `AppendPopulations`,
    `AppendStratifiers` and `CollectKeys` do the appending.

Raised exceptions become `Result` errors:

- `ValueError` (no library name): `MissingLibraryName`.
- `KeyError` on the population-exclusions entry: `PopulationExclusionsKeyError`.
- A dictionary without the library's row: `MissingIndicator`.
- A row without a column that is read: `MissingField`.

The library name is checked for emptiness before `Logic` is removed (lines
202-207). So `library Logic …` passes the check and yields an empty library
name. The model keeps that behaviour.

## Model

| member | source | states |
|---|---|---|
| CqlParser.TemplateOnly | who_l3_smart_tools/core/cql_tools/cql_resource_generator.py:175-186 | unset exactly when the text lacks `// Indicator Definition`; otherwise true iff only whitespace follows the first occurrence of the marker |
| CqlParser.FindIndicatorId | who_l3_smart_tools/core/cql_tools/cql_resource_generator.py:117 | the leftmost position where `HIV.IND.` followed by a digit starts, or none when there is no such position |
| CqlParser.FindLibraryDecl | who_l3_smart_tools/core/cql_tools/cql_resource_generator.py:195-200 | the leftmost line-initial `library`, whitespace, word, whitespace; or none when there is none |
| CqlParser.IdentifyLibraryFinds | who_l3_smart_tools/core/cql_tools/cql_resource_generator.py:188-203 | a name is found unless the text has neither an indicator identifier nor a `library` line; it is an indicator's name exactly when the text has an identifier |
| CqlParser.StripLogic | who_l3_smart_tools/core/cql_tools/cql_resource_generator.py:205-207 | a trailing `Logic` is removed exactly once; any other name is unchanged |
| CqlParser.DefineMatchAt | who_l3_smart_tools/core/cql_tools/cql_resource_generator.py:224 | the match of `define "(.+ suffix)":` at a position: the title stays within one line and ends at the last suffix on that line (greedy `.+`), or there is no match |
| CqlParser.FindAllDefines | who_l3_smart_tools/core/cql_tools/cql_resource_generator.py:224 | every title found is non-empty before the suffix, ends with the suffix, has no line break, and occurs in the text as `define "<title>":` |
| CqlParser.FindAllDefinesEmpty | who_l3_smart_tools/core/cql_tools/cql_resource_generator.py:224 | no title is found from a position iff no `define "<title><suffix>":` match starts at or after it |
| CqlParser.FindAllDefinesAtMatch | who_l3_smart_tools/core/cql_tools/cql_resource_generator.py:224 | at a match the scan yields its title, then resumes right after the match's closing `":`, so matches do not overlap |
| CqlParser.FindAllDefinesAtLeftmost | who_l3_smart_tools/core/cql_tools/cql_resource_generator.py:224 | the first title found is the one of the leftmost match; the scan then resumes after that match |
| CqlParser.FirstIndex | who_l3_smart_tools/core/cql_tools/cql_resource_generator.py:225-226 | the position of the first occurrence of a title in the match list |
| CqlParser.DistinctInOrder | who_l3_smart_tools/core/cql_tools/cql_resource_generator.py:225-226 | dictionary keys after assigning every match: the same titles, no duplicates (compared case-sensitively), ordered by first appearance |
| CqlParser.DistinctInOrderHead | who_l3_smart_tools/core/cql_tools/cql_resource_generator.py:225-226 | the first key of the dictionary is the first title assigned |
| CqlParser.Parse | who_l3_smart_tools/core/cql_tools/cql_resource_generator.py:153-259 | fails with the missing-name error iff there is neither an indicator identifier nor a library line. isIndicator iff an identifier occurs; each population flag iff its declaration occurs, case-insensitively; the stratifiers are exactly the matched titles, distinct |
| CqlParser.ParseNamesFirstIndicatorId | who_l3_smart_tools/core/cql_tools/cql_resource_generator.py:188-192 | with an identifier, the library name is the leftmost identifier (digits never end in `Logic`) and the text is an indicator |
| CqlParser.ParseNamesDeclaredLibrary | who_l3_smart_tools/core/cql_tools/cql_resource_generator.py:193-207 | without an identifier, the name is the word after the first `library` line with one `Logic` removed, and the text is not an indicator |
| CqlParser.ParseKeepsStratifierOrder | who_l3_smart_tools/core/cql_tools/cql_resource_generator.py:223-226 | stratifier titles appear in the order of their first match |
| CqlParser.ParseFindsStratifiers | who_l3_smart_tools/core/cql_tools/cql_resource_generator.py:223-226 | with a stratifier definition, the first stratifier of a successful parse is the title of the leftmost match |
| CqlParser.ParseWithoutStratifiers | who_l3_smart_tools/core/cql_tools/cql_resource_generator.py:223-226 | a successful parse has no stratifiers iff the text has no stratifier definition |
| CqlParser.ParseFailsOnExclusions | who_l3_smart_tools/core/cql_tools/cql_resource_generator.py:251-256 | the lookup error occurs iff the text has an indicator identifier or a `library` line, and a `define "<title> Population Exclusion":` match |
| Text.ContainsFolded | who_l3_smart_tools/core/cql_tools/cql_resource_generator.py:209-221 | true iff the pattern occurs somewhere under case folding |
| Text.RemoveChar | who_l3_smart_tools/core/cql_tools/cql_resource_generator.py:268 | `replace('.', '')`: no dot remains, every other character keeps its number of occurrences, and a text without dots is unchanged |
| Text.RemoveCharConcat | who_l3_smart_tools/core/cql_tools/cql_resource_generator.py:268 | removing dots commutes with concatenation, so the characters kept stay in their order |
| Text.PrefixBefore | who_l3_smart_tools/core/cql_tools/cql_resource_generator.py:267 | `split(".")[0]`: the longest prefix without the separator |
| Text.SplitWords | who_l3_smart_tools/core/cql_tools/cql_resource_generator.py:380 | `str.split()`: every piece is a non-empty run without whitespace |
| Text.SplitAfterBlank | who_l3_smart_tools/core/cql_tools/cql_resource_generator.py:380 | leading whitespace does not change the split |
| Text.SplitSpaced | who_l3_smart_tools/core/cql_tools/cql_resource_generator.py:380 | words separated by any non-empty runs of whitespace, with any whitespace at either end, split back into exactly those words |
| Text.SplitGaps | who_l3_smart_tools/core/cql_tools/cql_resource_generator.py:380 | every text is its split words with whitespace separators between them, non-empty between words; with `SplitSpaced` this characterises `str.split()` completely |
| Text.SplitJoinWords | who_l3_smart_tools/core/cql_tools/cql_resource_generator.py:380 | splitting words joined by single spaces gives the words back |
| LineText.Lines | who_l3_smart_tools/core/cql_tools/cql_resource_generator.py:386-389 | `split("\n")`: at least one piece, none holds a line break, and joining them gives the text back |
| LineText.DropBlankLines | who_l3_smart_tools/core/cql_tools/cql_resource_generator.py:386-389 | empty iff the text is blank; otherwise its lines are exactly the non-blank lines of the text, in order |
| FshTemplates.TemplatesAreBound | who_l3_smart_tools/core/cql_tools/cql_resource_generator.py:13-112 | every placeholder of every template has an argument at its call site |
| FshTemplates.MeasurePiecesOpen | who_l3_smart_tools/core/cql_tools/cql_resource_generator.py:35-39 | the Measure template opens with `Instance:` and the measure name, `InstanceOf:` and the instance type, and `Title:` and the title |
| FshTemplates.MeasureTemplateOpens | who_l3_smart_tools/core/cql_tools/cql_resource_generator.py:35-39 | the filled Measure template starts with its instance, type and title lines built from the arguments |
| LibraryBuilder.DakName | who_l3_smart_tools/core/cql_tools/cql_resource_generator.py:267 | the prefix of the raw name up to its first dot, or the whole name |
| LibraryBuilder.LibraryFieldsOf | who_l3_smart_tools/core/cql_tools/cql_resource_generator.py:266-279 | the name is the raw name without dots plus `Logic`, and the title is the raw name. The description comes from the row when the name is a key, else the placeholder. A row without the definition column is a lookup error |
| MeasureBuilder.InitialsButLastSpec | who_l3_smart_tools/core/cql_tools/cql_resource_generator.py:381 | one upper-cased initial per word, the last word excepted |
| MeasureBuilder.StratifierCodeOfTitle | who_l3_smart_tools/core/cql_tools/cql_resource_generator.py:379-381 | the code of a title has one character per word but the last: the upper-cased first letter of that word |
| MeasureBuilder.StratifierCodeOfWords | who_l3_smart_tools/core/cql_tools/cql_resource_generator.py:379-381 | for words separated by any whitespace, the code has one character per word but the last, the upper-cased initial of that word |
| MeasureBuilder.StratifierCodeOfThreeWords | who_l3_smart_tools/core/cql_tools/cql_resource_generator.py:379-381 | three space-separated words give the upper-cased initials of the first two |
| MeasureBuilder.StratifierCodeOfFourWords | who_l3_smart_tools/core/cql_tools/cql_resource_generator.py:379-381 | four space-separated words give the upper-cased initials of the first three |
| MeasureBuilder.StratifierCodeOfAgeAndSex | who_l3_smart_tools/core/cql_tools/cql_resource_generator.py:379-381 | `Age And Sex Stratifier` yields the code `AAS` |
| MeasureBuilder.StratifierCodeOfRegion | who_l3_smart_tools/core/cql_tools/cql_resource_generator.py:379-381 | `Region Stratifier` yields the code `R` |
| MeasureBuilder.StratifierCodeOfAgeGroup | who_l3_smart_tools/core/cql_tools/cql_resource_generator.py:379-381 | `Age Group Stratifier` yields the code `AG` |
| MeasureBuilder.StratifierCodeOfAreaGroup | who_l3_smart_tools/core/cql_tools/cql_resource_generator.py:379-381 | `Area Group Stratifier` yields the code `AG` too |
| MeasureBuilder.StratifierCodesCollide | who_l3_smart_tools/core/cql_tools/cql_resource_generator.py:378-384 | two titles that differ only in a leading word with the same initial are distinct but share a code, so stratifier ids are not unique |
| MeasureBuilder.StratifierClauses | who_l3_smart_tools/core/cql_tools/cql_resource_generator.py:378-384 | one stratifier clause per title, in the record's order |
| MeasureBuilder.PopulationOrder | who_l3_smart_tools/core/cql_tools/cql_resource_generator.py:339-376 | the fixed order IP, MP, MO, DEN, NUM, each kind once |
| MeasureBuilder.PopulationClauses | who_l3_smart_tools/core/cql_tools/cql_resource_generator.py:339-376 | a population clause is present iff its flag is set, and the clauses are in strictly increasing rank |
| MeasureBuilder.PopulationClausesByFlags | who_l3_smart_tools/core/cql_tools/cql_resource_generator.py:339-376 | the population clauses are the set flags' clauses, concatenated in the order IP, MP, MO, DEN, NUM |
| MeasureBuilder.GroupClauses | who_l3_smart_tools/core/cql_tools/cql_resource_generator.py:339-384 | each population clause is present iff its flag is set, and DEN and NUM carry the row's definitions. Clause kinds appear in rank order, and the stratifiers come last, one per title in order |
| MeasureBuilder.EmittedClauses | who_l3_smart_tools/core/cql_tools/cql_resource_generator.py:329-337 | clauses are emitted iff a stratifier or an IP, MP, DEN or NUM flag is present. A measure observation alone emits nothing; otherwise these are the group clauses |
| MeasureBuilder.OnlyDenominatorClause | who_l3_smart_tools/core/cql_tools/cql_resource_generator.py:329-370 | with only the denominator flag, exactly one clause, the denominator, is emitted |
| MeasureBuilder.ScoringLineNotBlank | who_l3_smart_tools/core/cql_tools/cql_resource_generator.py:55-57 | the scoring line starts with `*` after its line break |
| MeasureBuilder.MeasureHeaderOpens | who_l3_smart_tools/core/cql_tools/cql_resource_generator.py:301-322 | the Measure header starts with the instance line named by the DAK ID without dots (no dot remains), the scoring's instance type, and the title `<DAK ID> <Short name>` |
| MeasureBuilder.MeasureTextNotBlank | who_l3_smart_tools/core/cql_tools/cql_resource_generator.py:316-327 | the Measure text before blank-line removal is never blank, because it holds the scoring line |
| MeasureBuilder.RowMeasure | who_l3_smart_tools/core/cql_tools/cql_resource_generator.py:296-389 | a missing header column is a lookup error even when the scoring is undetermined, and the one reported is the first missing of DAK ID, Short name, Indicator definition. A missing DEN or NUM column is an error only when that clause is rendered, DEN first. Every error is a missing field of a row without the needed columns. With the three header columns present, an undetermined scoring gives no Measure and no error, whatever the DEN and NUM columns; otherwise the result is the rendered text without blank lines |
| MeasureBuilder.MeasureFsh | who_l3_smart_tools/core/cql_tools/cql_resource_generator.py:290-299 | no Measure for a non-indicator or a template-only text; a lookup error when the dictionary has no row for the name; otherwise the row's Measure |
| MeasureBuilder.MeasureHasNoBlankLines | who_l3_smart_tools/core/cql_tools/cql_resource_generator.py:386-389 | with the columns present and a determined scoring, a Measure is produced, and it is non-empty with no blank line |
| CqlTools.CqlResourceGenerator.constructor | who_l3_smart_tools/core/cql_tools/cql_resource_generator.py:141-145 | stores the text and the dictionary, with no parse cached |
| CqlTools.CqlResourceGenerator.Create | who_l3_smart_tools/core/cql_tools/cql_resource_generator.py:141-145 | construction fails iff the parse fails, with the parse's error; a constructed generator holds the parse of its text |
| CqlTools.CqlResourceGenerator.ParseCql | who_l3_smart_tools/core/cql_tools/cql_resource_generator.py:153-259 | returns the parse of the text; a cached record is returned unchanged; a successful first call caches its result; a failed call caches nothing |
| CqlTools.CqlResourceGenerator.LibraryName | who_l3_smart_tools/core/cql_tools/cql_resource_generator.py:392-393 | the library name of the text's parse |
| CqlTools.CqlResourceGenerator.IsIndicator | who_l3_smart_tools/core/cql_tools/cql_resource_generator.py:395-396 | true iff the text contains an indicator identifier |
| CqlTools.CqlResourceGenerator.GenerateLibraryFsh | who_l3_smart_tools/core/cql_tools/cql_resource_generator.py:261-288 | the Library template filled with the dotless name plus `Logic`, the raw name as title, the row's definition or the placeholder as description, and the DAK name; an error iff the row lacks the definition |
| CqlTools.CqlResourceGenerator.GenerateMeasureFsh | who_l3_smart_tools/core/cql_tools/cql_resource_generator.py:290-389 | the appending implementation equals the Measure specification for the cached record |
| CqlTools.MeasureForRow | who_l3_smart_tools/core/cql_tools/cql_resource_generator.py:301-389 | header, scoring line and group appended to each other, then blank lines dropped, equal the row's Measure specification, error paths included |
| CqlTools.AppendGroup | who_l3_smart_tools/core/cql_tools/cql_resource_generator.py:329-384 | appends the group block of the emitted clauses; an error iff a rendered DEN or NUM clause lacks its column |
| CqlTools.AppendPopulations | who_l3_smart_tools/core/cql_tools/cql_resource_generator.py:339-376 | the five conditional appends add exactly the rendering of the population clauses, or fail on the first missing definition column |
| CqlTools.AppendStratifiers | who_l3_smart_tools/core/cql_tools/cql_resource_generator.py:378-384 | the loop appends one stratifier clause per title, in order |
| CqlTools.CollectKeys | who_l3_smart_tools/core/cql_tools/cql_resource_generator.py:224-226 | the loop that fills the stratifier dictionary yields the distinct titles in order of first appearance |
| CqlTools.ScanCql | who_l3_smart_tools/core/cql_tools/cql_resource_generator.py:153-259 | the step-by-step scan of the text equals its parse, error cases included |

## Left out

- The scoring resolver (`determine_scoring_from_cql`) is not part of this model. It is the parameter `resolve`, and an empty scoring code stands for its falsy result.
- The current date is the parameter `date`. The clock is not modelled.
- The diagnostic `print` for an undetermined scoring is not modelled. Only its `None` result is.
- `parseRow` (a pandas `Series.to_dict()`) is not modelled. An indicator row is a map from column names to strings, so missing (NaN) cells and non-string values are not modelled.
- Regular expressions are hand-written scanners, one per pattern, not a general engine.
  - `\d` and `\w` are ASCII only.
  - `re.IGNORECASE` folds ASCII letters and the few non-ASCII characters that fold onto the letters of the patterns.
  - `\s` and `str.strip()` use Python's whitespace set.
- `str.upper()` is modelled for ASCII letters only.
- The `__empty__` sentinel is the `None` of an `Option`.
- The stratifier dictionary's values are always `True`, so it is modelled as the sequence of its keys in insertion order.
- Population exclusion definitions reach a dictionary entry that is never created (line 256). The model reports this as the error `PopulationExclusionsKeyError`. It does not model how the Python exception propagates.
- The extra keyword arguments passed to the population templates (lines 340-364) are ignored by `str.format` and are not modelled.
- `FshTemplates.PieceText`: a placeholder without an argument yields the empty string instead of raising `KeyError`. `TemplatesAreBound` shows that no template call leaves a placeholder unbound.
- The question and questionnaire generators and the test suite are not part of this model.
