/** The bot's own types: its configuration record and its phase enum. */
module BotTypes {

  /** One reservation request from the configuration file. */
  datatype RecBotOptions = RecBotOptions(url: string, email: string, password: string, date: string)

  /** The three phases of a bot. */
  datatype RecBotState = LoggedOut | Reserving | Purchasing
}
