/**
 * `generate_library_fsh`: the identifiers derived from the library name and
 * the values that fill the Library template.
 */
module LibraryBuilder {
  import opened Wrappers
  import opened Text
  import opened CqlParser
  import opened IndicatorTable

  const PlaceholderDescriptionPrefix := "Description not yet available for "

  /** `name.split(".")[0]`: the DAK name that namespaces the canonical URLs. */
  function DakName(rawName: string): (r: string)
    ensures |r| <= |rawName| && r == rawName[..|r|]
    ensures '.' !in r
    ensures |r| == |rawName| || rawName[|r|] == '.'
  {
    PrefixBefore(rawName, '.')
  }

  /** The values substituted into the Library template. */
  datatype LibraryFields = LibraryFields(libraryName: string, title: string, description: string, dakName: string)

  /**
   * The Library's name is the raw name without dots followed by `Logic`; its
   * title is the raw name; its description comes from the indicator row when
   * the raw name is a dictionary key, and is a placeholder otherwise.
   */
  function LibraryFieldsOf(rawName: string, dict: IndicatorDictionary): (r: Result<LibraryFields, FshError>)
    ensures r.Err? <==> rawName in dict && IndicatorDefinitionColumn !in dict[rawName]
    ensures r.Err? ==> r.error == MissingField(IndicatorDefinitionColumn)
    ensures r.Ok? ==> r.value.title == rawName && r.value.dakName == DakName(rawName)
    ensures r.Ok? ==> r.value.libraryName == RemoveChar(rawName, '.') + LogicSuffix
    ensures r.Ok? ==> '.' !in r.value.libraryName && EndsWith(r.value.libraryName, LogicSuffix)
    ensures r.Ok? && rawName in dict ==> r.value.description == dict[rawName][IndicatorDefinitionColumn]
    ensures r.Ok? && rawName !in dict ==>
      r.value.description == PlaceholderDescriptionPrefix + r.value.libraryName + "."
  {
    var libraryName := RemoveChar(rawName, '.') + LogicSuffix;
    assert '.' !in LogicSuffix;
    if rawName in dict then
      var row := dict[rawName];
      if IndicatorDefinitionColumn !in row then Err(MissingField(IndicatorDefinitionColumn))
      else Ok(LibraryFields(libraryName, rawName, row[IndicatorDefinitionColumn], DakName(rawName)))
    else
      Ok(LibraryFields(libraryName, rawName, PlaceholderDescriptionPrefix + libraryName + ".", DakName(rawName)))
  }
}
