/** Vocabulary shared by the server relay and the browser client. */
module Signaling {

  /** A socket.io connection id (random and never numeric). */
  type SocketId = string

  /** A participant's display name; it is also the routing key of the relay. */
  type Username = string

  /** The three negotiation stages that the server forwards unchanged:
      `audio-offer`, `audio-answer` and `ice-candidate`. */
  datatype SignalKind = Offer | Answer | Candidate

  /** A signaling payload `{ from, to, sdp }` or `{ from, to, candidate }`.
      The body is a type parameter, so nothing here can look inside it. */
  datatype Signal<B> = Signal(from: Username, to: Username, body: B)
}
