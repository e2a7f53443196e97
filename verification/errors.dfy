/** The rejections the bot surfaces to its callers. */
module Errors {
  import Tickets

  datatype BotError =
    /** `execCommand`/`execEvent` on a key nothing is registered under. */
    | UnregisteredAction(key: string)
    /** A `waitResponse` promise whose timer fired before a reply arrived. */
    | ResponseTimeout(ticket: Tickets.Ticket)
}
