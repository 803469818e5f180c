/** The record shapes the knowledge base stores and passes around (the JSON
    dictionaries of notes, tags, chats and retrieval sources), the settings
    the core reads from its configuration, and the two result wrappers used
    for optional values and for operations that may raise. */
module Records {

  datatype Option<T> = None | Some(value: T)

  /** The outcome of a call that may raise: its value, or the exception's text. */
  datatype Outcome<T> = Done(value: T) | Raised(error: string)

  /** Maximum number of stored conversations. */
  const MaxChats: nat := 10
  /** Number of documents retrieval returns by default. */
  const RagTopK: nat := 5
  /** Maximum number of model invocations in one tool-calling turn. */
  const ToolCallingMaxRounds: nat := 5
  /** Longest chat title kept. */
  const TitleLength: nat := 50

  /** The source types a note may have. */
  const SourceTypes: seq<string> := ["livro", "video", "artigo", "podcast", "curso", "outro"]

  datatype Note = Note(
    id: string,
    title: string,
    content: string,
    sourceType: string,
    sourceName: string,
    sourceAuthor: string,
    tags: seq<string>,
    createdAt: string)

  datatype Tag = Tag(id: string, name: string)

  /** What retrieval reports about one note it used. */
  datatype Source = Source(
    noteId: string,
    title: string,
    sourceType: string,
    sourceName: string,
    sourceAuthor: string,
    tags: seq<string>)

  /** One chat message: `role` is "user" or "assistant"; user messages carry no
      sources (an absent `sources` key reads as the empty list). */
  datatype ChatMessage = ChatMessage(role: string, content: string, sources: seq<Source>)

  datatype Chat = Chat(
    id: string,
    title: string,
    messages: seq<ChatMessage>,
    createdAt: string,
    updatedAt: string)
}
