/**
 * The indicator dictionary the generator is given: library name to one row of
 * indicator metadata, each row a map from column title to cell text.
 */
module IndicatorTable {

  type Row = map<string, string>

  type IndicatorDictionary = map<string, Row>

  const DakIdColumn := "DAK ID"
  const ShortNameColumn := "Short name"
  const IndicatorDefinitionColumn := "Indicator definition"
  const DenominatorDefinitionColumn := "Denominator definition"
  const NumeratorDefinitionColumn := "Numerator definition"

  /** The `KeyError`s the builders raise on a missing row or a missing column. */
  datatype FshError =
    | MissingIndicator(name: string)
    | MissingField(column: string)
}
