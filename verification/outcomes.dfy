/** Result types shared by the three stages of the calculator. The source signals
    every failure with a Python exception; the model collapses them into one
    `Fault` outcome tagged with the reason. */
module Outcomes {

  datatype Option<+T> = None | Some(value: T)

  /** Why a stage failed.
      - UnknownCharacter: the category lookup of a character returned nothing
        (the source then fails computing the table row).
      - IndexPastEnd: the scanner read past the appended sentinel.
      - PopFromEmpty: a `pop` on an empty Python list.
      - ZeroDivision: `/` with a zero right operand.
      - NotAnInteger: `int()` applied to the text of a quotient. */
  datatype Reason = UnknownCharacter | IndexPastEnd | PopFromEmpty | ZeroDivision | NotAnInteger

  datatype Result<+T> = Ok(value: T) | Fault(reason: Reason)
}
