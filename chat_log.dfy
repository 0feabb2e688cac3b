/** The conversation log shared by both chat widgets: an ordered list of
    `{role, text}` messages, and the two fixed texts the widgets put into it. */
module ChatLog {

  /** `'user'` for the visitor's turns, `'model'` for the assistant's. */
  datatype Role = User | Model

  datatype Message = Message(role: Role, text: string)

  /** The assistant's opening line, shown when the widget starts. */
  const Greeting: string :=
    "Hi! I'm Tanvir's AI assistant. Ask me anything about his professional background."

  /** The fixed reply that stands in for a failed request. */
  const Apology: string := "Sorry, I encountered an error. Please try again."

  /** The log a freshly started widget shows: the greeting alone. */
  const GreetingLog: seq<Message> := [Message(Model, Greeting)]
}
