# PartialRelation: column-schema descriptor

A model of `PartialRelation` from the LDAP data-store library (`lib/PartialRelation.cpp`).
A `PartialRelation` describes the columns of one record type. The constructor fixes the
record type and the column count. Three setters then fill three index-aligned arrays, one
entry per column: the column names (as `StringValue`s), the attribute formats and the
numeric column IDs. Two lookups turn a column name or a column ID into the column's
position. Each returns the first position that matches, or raises
`CSSMERR_DL_INVALID_FIELD_NAME` when none does.

Files:

- `cssm.dfy` (module `Cssm`): `uint32` and `int32` as newtypes. The record type and the
  attribute format are opaque `uint32` values that are passed through unchanged.
  `CssmError` has the single code this component raises. `Result` carries either a
  return value or a raised CSSM error.
- `values.dfy` (module `Values`): `StringValue`, the text-valued column value, and
  `Texts`, its raw texts position by position.
- `partial_relation.dfy` (module `PartialRelations`):
  - `FindColumn`, the first-match lookup that both `GetColumnNumber` overloads perform, with its lemmas.
  - The class `PartialRelation`. Its count is a `const`. Its three arrays are `array?` fields that stay null until their setter runs.
  - A ghost `Valid()` says that every allocated array has one entry per column.
  - Ghost `Names()`, `Formats()` and `Ids()` give the abstract contents.
  - Two client methods, `ThreeColumnScenario` and `DuplicateIdScenario`, show what a caller can prove from the contracts alone.

The C++ overloads `GetColumnNumber(const char*)` and `GetColumnNumber(uint32)` are named
`GetColumnNumber` and `GetColumnNumberById` here. The varargs setters take a sequence.
Their precondition asks for exactly one argument per column and at least one column,
because the source writes slot 0 unconditionally and reads one vararg per column.
`mColumnIDs` is not set by the constructor. Here it is null until `SetColumnIDs` runs.
A lookup requires its array to be set only when the count is positive, because the source
reads the array only inside the loop over the columns.

## Model

| member | source | states |
|---|---|---|
| `PartialRelations.PartialRelation.constructor` | lib/PartialRelation.cpp:30-34 | records the record type and the column count; no array is allocated yet |
| `PartialRelations.PartialRelation.SetColumnNames` | lib/PartialRelation.cpp:55-72 | needs count >= 1 and one name per column; allocates a fresh array of count entries; slot i holds `StringValue(names[i])`, in argument order; formats and IDs are untouched |
| `PartialRelations.PartialRelation.SetColumnFormats` | lib/PartialRelation.cpp:76-92 | needs count >= 1 and one format per column; fresh array of count entries whose slot i holds the i-th format; names and IDs untouched |
| `PartialRelations.PartialRelation.SetColumnIDs` | lib/PartialRelation.cpp:96-112 | needs count >= 1 and one ID per column; fresh array of count entries whose slot i holds the i-th ID; names and formats untouched |
| `PartialRelations.PartialRelation.GetColumnNames` | lib/PartialRelation.cpp:116-120 | needs the names set only when there is a column; a row of exactly count values (empty without columns), element i being the stored name value i, so its texts are the names in the order they were set |
| `PartialRelations.PartialRelation.GetNumberOfColumns` | lib/PartialRelation.cpp:124-127 | returns the count given to the constructor (a `const`, so no setter or lookup changes it) |
| `PartialRelations.PartialRelation.GetColumnIDs` | lib/PartialRelation.cpp:131-134 | returns the stored ID array itself, not a copy |
| `PartialRelations.PartialRelation.GetColumnNumber` | lib/PartialRelation.cpp:138-152 | the answer is `FindColumn` over the stored names: the smallest position whose name equals the argument exactly, below the count, or `DlInvalidFieldName` exactly when no name equals it; changes nothing |
| `PartialRelations.PartialRelation.GetColumnNumberById` | lib/PartialRelation.cpp:156-168 | the answer is `FindColumn` over the stored IDs: the smallest position holding the ID, below the count, or `DlInvalidFieldName` exactly when no ID matches; changes nothing |
| `PartialRelations.FindColumn` | lib/PartialRelation.cpp:142-151 | on success the position is in range, holds the key, and every earlier position holds a different key; it fails exactly when the key is absent, and the failure is `DlInvalidFieldName` |
| `PartialRelations.FindColumnIsFirstMatch` | lib/PartialRelation.cpp:159-165 | a scan that stops at the first equal key returns the same position as `FindColumn` |
| `PartialRelations.FindColumnOfDistinct` | lib/PartialRelation.cpp:142-149 | with no duplicate keys, looking up the key stored at position i gives i |
| `PartialRelations.FindColumnShadowsLater` | lib/PartialRelation.cpp:159-165 | both positions of a duplicated pair get the same answer, no later than the earlier of the two positions, so the later column is never found |
| `PartialRelations.ColumnsAligned` | lib/PartialRelation.cpp:55-112 | once all three setters have run, the three arrays have count entries each; with distinct names and IDs, the name and the ID at position i both resolve to i |

## Left out

- Varargs mechanics (`va_list`, `va_arg`). A setter's arguments are a sequence whose length must equal the count. The source's unchecked read past the supplied arguments is not modelled.
- The destructor and memory management (lib/PartialRelation.cpp:38-51). The source frees the arrays with `delete` rather than `delete[]` and never frees the ID array. Memory is not modelled.
- Reading `mColumnIDs` before `SetColumnIDs` has run: the pointer holds garbage. Here it is null, and the ID lookup requires it to be set whenever there is a column.
- GetColumnNames: the source returns a `TableTuple` that points into the name array and does not copy it. The model returns the name values as a sequence. With a negative count it returns an empty row, since what `TableTuple` does with a negative length is not part of this model.
- `Values.StringValue.RawValue` and `Values.Texts` are plain reads of the stored text (`GetRawValueAsStdString`), used by the name lookup and by `Names()`. They carry no contract of their own.
- GetColumnIDs: the raw `uint32*` is modelled as the array reference (`array?`), which is null before `SetColumnIDs`.
- The numeric value of `CSSMERR_DL_INVALID_FIELD_NAME` and the mechanism of `CSSMError::ThrowCSSMError` are defined in files that are not part of this model. Here the error is the abstract code `DlInvalidFieldName`, returned as `Err` instead of being thrown.
- The `Relation` base class is not modelled beyond the record type it stores. `StringValue` and `Value` are not modelled beyond the raw text that the name lookup compares.
- C strings cannot contain a NUL character. Names here are arbitrary character sequences, and comparison is exact sequence equality.
- Uniqueness of names and IDs is not enforced, because the source does not enforce it. Lookups keep the source's first-match answer (`FindColumnShadowsLater`). A validating builder that would reject duplicates or missing setters is not the source's behaviour, so it is not modelled.
- Concurrency and publication between threads are not modelled. The model is sequential.
