/** The node backend's message types, as far as the service layer reads them. */
module BackendTypes {
  import opened Wrappers
  import Handlers

  /** `MessageType`, the tag that picks the endpoint a backend message goes to. */
  datatype MessageType =
    | SimpleText
    | HttpRequest
    | TunnelMessage
    | Extension
    | OtherType(tag: nat)

  /** `BackendMessage`: a type tag and the bytes the endpoint interprets. */
  datatype BackendMessage = BackendMessage(messageType: MessageType, data: seq<byte>)

  /**
   * The parts of a received `MessagePayload` the backend reads: the
   * transaction's destination, the outcome of decoding the transaction's
   * data (`None` when `transaction.data()` fails) and the relay's origin
   * sender.
   */
  datatype MessagePayload = MessagePayload(destination: Handlers.Did, data: Option<Handlers.Message>, originSender: Handlers.Did)

  /** `MessageHandlerEvent`: what an endpoint asks the swarm to do next; not interpreted here. */
  datatype Event = Event(code: nat)

  /** The node's `Error` values the service layer produces, and those of collaborators. */
  datatype Error =
    | DecodeError
    | InvalidMessage
    | TransactionDataError
    | Collaborator(code: nat)
}
