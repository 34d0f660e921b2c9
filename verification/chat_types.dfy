/** The chat records of `src/types/chat.ts`. Dates are integer clock
    readings supplied by the caller. */
module ChatTypes {
  import opened JsValues

  datatype Role = User | Assistant

  /** A source attached to an assistant answer. */
  datatype Source = Source(
    id: string,
    title: string,
    url: string,
    description: Option<string>,
    language: Option<string>,
    fileType: Option<string>,
    relevanceScore: Option<real>,
    isTest: Option<bool>,
    isConfig: Option<bool>)

  datatype Message = Message(
    id: string,
    content: string,
    role: Role,
    timestamp: int,
    sources: Option<seq<Source>>)

  datatype Chat = Chat(
    id: string,
    title: string,
    userId: string,
    messages: seq<Message>,
    createdAt: int,
    updatedAt: int)
}
