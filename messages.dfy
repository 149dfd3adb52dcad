/** The chat log's record type. */
module Messages {
  import opened Wrappers

  datatype Sender = User | Ai | System

  /** One entry of the chat log. `id` and `timestamp` are supplied by the
      caller (a random UUID and the wall clock in the running program). */
  datatype ChatMessage = ChatMessage(
    id: string,
    sender: Sender,
    text: string,
    youtubeSearchQuery: Option<string>,
    timestamp: int)
}
