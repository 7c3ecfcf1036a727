/**
 * The rows of the assistant, conversation and message tables (the
 * columns that some modelled code reads). Nullable columns are `Option`s.
 */
module Schema {
  import opened Wrappers

  datatype Assistant = Assistant(
    id: int,
    userId: string,
    name: string,
    description: Option<string>,
    systemPrompt: string,
    welcomeMessage: Option<string>,
    coverImage: Option<string>,
    isDemo: Option<bool>,
    isPublished: Option<bool>)

  /** The `isDemo` column read as a JavaScript condition: only `true` is demo. */
  predicate IsDemo(a: Assistant) {
    a.isDemo == Some(true)
  }

  datatype Conversation = Conversation(id: int, assistantId: Option<int>, title: string)

  /** A stored chat message; `role` is free text (`user`, `model`, ...). */
  datatype Message = Message(conversationId: int, role: string, content: string)

  const UserRole := "user"
  const ModelRole := "model"
}
