// The value types of the chat client (types.ts).
module Types {

  datatype Option<+T> = None | Some(value: T)

  /** Who wrote a message; the stored form is "user" or "ai". */
  datatype Sender = User | AI

  /** One chat message: an opaque id, its text and its author. */
  datatype Message = Message(id: string, text: string, sender: Sender)
}
