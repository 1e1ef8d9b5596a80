/**
 The part of the intermediate data representation (package idrf) that field
 discovery produces: a closed enumeration of column types and the column
 descriptor itself.
 */
module Idrf {
  /** The four canonical types a discovered field can have. */
  datatype DataType = IDRFBoolean | IDRFDouble | IDRFInteger64 | IDRFString

  /** One discovered field: its name, copied verbatim, and its canonical type. */
  datatype ColumnInfo = ColumnInfo(name: string, dataType: DataType)
}
