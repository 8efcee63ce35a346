/** The answer a queue handler gives the broker for one delivered message. */
module Broker {

  datatype Reply =
    | Ack            // metadata.ack
    | RejectRequeue  // metadata.reject(:requeue => true): the broker redelivers the message later
    | NoReply        // the handler returns without acknowledging or rejecting
    | Raised         // an exception escapes the handler before it answers
}
