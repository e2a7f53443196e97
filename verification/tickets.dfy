/**
  Tickets key the pending-response store: one ticket per (chat, user) pair,
  identifying "the next message from this user in this chat".
*/
module Tickets {
  import opened Messages

  /** A ticket is the pair of identifiers it is derived from; its string form is not modelled. */
  datatype Ticket = Ticket(chatId: Identifier, fromId: Identifier)

  function TicketFromInfo(chatId: Identifier, fromId: Identifier): Ticket {
    Ticket(chatId, fromId)
  }

  /** The ticket of a message is the ticket of its chat id and sender id. */
  function TicketFromMessage(m: Message): Ticket {
    TicketFromInfo(m.chatId, m.fromId)
  }

  /** Distinct (chat, user) pairs never share a ticket. */
  lemma TicketFromInfoInjective(chat1: Identifier, from1: Identifier, chat2: Identifier, from2: Identifier)
    ensures TicketFromInfo(chat1, from1) == TicketFromInfo(chat2, from2) <==> chat1 == chat2 && from1 == from2
  {
  }

  /** Two messages share a ticket exactly when they come from the same user in the same chat. */
  lemma SameConversationSameTicket(m1: Message, m2: Message)
    ensures TicketFromMessage(m1) == TicketFromMessage(m2) <==> m1.chatId == m2.chatId && m1.fromId == m2.fromId
  {
  }
}
