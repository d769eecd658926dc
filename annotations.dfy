/** The data carried by the two field annotations the validator reads. */
module Annotations {

  /** @ExcelFieldLength: the permitted maximum length, an optional human label and an optional
      String.format template with (label, maximum, actual) as its arguments. */
  datatype ExcelFieldLength = ExcelFieldLength(value: int, fieldName: string, message: string)

  /** @ExcelFieldLength(value = n) with both optional elements left at their defaults. */
  function WithValue(n: int): (a: ExcelFieldLength) {
    ExcelFieldLength(n, "", "")
  }

  /** @ExcelProperty, reduced to its header names (the `value` array). */
  datatype ExcelProperty = ExcelProperty(value: seq<string>)
}
