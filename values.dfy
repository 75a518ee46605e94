/** The text-valued case of the polymorphic column value: a column name. */
module Values {

  /** A `StringValue`: the name of one column, as given to the name setter. */
  datatype StringValue = StringValue(raw: string)
  {
    /** `GetRawValueAsStdString`: the text the value was built from. */
    function RawValue(): string { raw }
  }

  /** The raw texts of a sequence of values, position by position. */
  function Texts(values: seq<StringValue>): seq<string>
  {
    seq(|values|, i requires 0 <= i < |values| => values[i].RawValue())
  }
}
