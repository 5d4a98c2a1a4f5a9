// Replay of a stored conversation as the prior context of a new chat handle
// (App.tsx, the `.map` that builds `history`).
module History {
  import opened Types

  /** One text part of a turn. */
  datatype Part = Part(text: string)

  /** One turn of the remote API's history: a role name and its parts. */
  datatype Content = Content(role: string, parts: seq<Part>)

  const UserRole: string := "user"
  const ModelRole: string := "model"

  /** The history turn for one stored message. */
  function Turn(m: Message): Content
  {
    Content(if m.sender == User then UserRole else ModelRole, [Part(m.text)])
  }

  /**
   * The history handed to the chat handle: one turn per message, same order,
   * the message text as its single part, role "user" for a user message and
   * "model" for anything else.
   */
  function ToHistory(ms: seq<Message>): (h: seq<Content>)
    ensures |h| == |ms|
    ensures forall i :: 0 <= i < |ms| ==>
      h[i].parts == [Part(ms[i].text)] &&
      (h[i].role == UserRole <==> ms[i].sender == User) &&
      (h[i].role == ModelRole <==> ms[i].sender == AI)
  {
    if ms == [] then [] else [Turn(ms[0])] + ToHistory(ms[1..])
  }

  /** The history of a longer conversation extends the history of its prefix. */
  lemma ToHistoryAppend(a: seq<Message>, b: seq<Message>)
    ensures ToHistory(a + b) == ToHistory(a) + ToHistory(b)
  {
  }
}
