/** The records the chat client exchanges with its backend. */
module ChatTypes {
  import opened Wrappers

  /** The signed-in user as the backend returns it and the browser persists it. */
  datatype Identity = Identity(email: string)

  datatype Kind = Text | Image

  /**
   * One entry of the message list. `message` is the ciphertext (or an opaque token);
   * `decrypted` is filled in on demand. The two durations are written by the page
   * although the declared interface does not list them, and the page's own
   * optimistic entry has no `timestamp`, so that field is optional here.
   */
  datatype ChatMessage = ChatMessage(
    sender: string,
    message: string,
    timestamp: Option<string>,
    kind: Option<Kind>,
    decrypted: Option<string>,
    mime: Option<string>,
    encryptDuration: Option<int>,
    decryptDuration: Option<int>)
}
