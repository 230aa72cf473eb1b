/** The alerts the screens present, by the cases of their `AlertType` enums. */
module Alerts {
  datatype Alert =
    | ErrorAlert(message: string)
    | SignupSuccess
    | LoginSuccess
    | UpdateSuccess
    | DiscardChanges
}
