/** Small value types shared by the dashboard modules. */
module Basics {

  datatype Option<T> = None | Some(value: T)

  /** One entry of a Python dict read with `.get`: the key may be missing,
      present with the value None, or present with a value. */
  datatype Entry<T> = Missing | Null | Present(value: T)

  /** The Flet icon names the dashboard shows (ft.Icons.*). */
  datatype Icon =
    | SentimentVerySatisfied
    | SentimentSatisfied
    | SentimentNeutral
    | SentimentDissatisfied
    | Computer
    | HourglassEmpty
    | HelpOutline
    | InfoIcon
    | CheckCircle
    | WarningIcon
    | ErrorIcon
}
