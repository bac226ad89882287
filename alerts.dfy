/**
 * The global alert dialog (`showAlert(title, message)` of the custom alert
 * component): the screens are modelled as returning the alert they raise.
 */
module Alerts {
  datatype Alert = Alert(title: string, message: string)
}
