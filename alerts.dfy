/**
 * The alert values that travel from the server to the local handlers
 * (com.ayush.gcnclient.alert.Alert and its AlertType).
 */
module Alerts {

  /**
   * One constant of the AlertType enum, identified by its name. The enum's
   * declaration is not part of this model, so no constant other than
   * STARTING_NOW is named here.
   */
  datatype AlertType = AlertType(name: string)

  /** The constant the client uses for its own start-up notification. */
  const STARTING_NOW: AlertType := AlertType("STARTING_NOW")

  /**
   * AlertType.message(): every constant has exactly one message text. Its
   * table is not part of this model, so every operation that needs it takes
   * it as an argument and every property is proved for all such tables.
   */
  type MessageCatalog = AlertType -> string

  /** An alert: a meeting title and the kind of alert. */
  datatype Alert = Alert(title: string, alertType: AlertType)
}
