/** Fixed-width integers and the CSSM identifiers and error codes that the
    column-schema descriptor passes through without interpreting them. */
module Cssm {

  /** C `uint32`: column IDs, and the representation of the CSSM enumerations. */
  newtype uint32 = x: int | 0 <= x < 0x1_0000_0000

  /** C `int`: the column count and the column indices. */
  newtype int32 = x: int | -0x8000_0000 <= x < 0x8000_0000

  /** `CSSM_DB_RECORDTYPE`: names the kind of record a relation describes. */
  type RecordType = uint32

  /** `CSSM_DB_ATTRIBUTE_FORMAT`: the representation of one column's values. */
  type AttributeFormat = uint32

  /** The error codes this component can raise through the CSSM error mechanism. */
  datatype CssmError = DlInvalidFieldName   // CSSMERR_DL_INVALID_FIELD_NAME

  /** A return value or a thrown CSSM error. */
  datatype Result<+T> = Ok(value: T) | Err(error: CssmError)
}
