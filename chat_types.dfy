/**
 * The chat records shared by the store, the client and the components
 * (`types/chat.ts`). Optional TypeScript properties are `Option`s; a
 * JavaScript `Date` is a millisecond count or the invalid date.
 */
module ChatTypes {
  import opened Wrappers

  datatype Role = User | Assistant | System

  /** A JavaScript `Date`: milliseconds since the epoch, or an invalid date (`NaN`). */
  datatype Date = Date(ms: int) | InvalidDate

  datatype Citation = Citation(
    id: string,
    title: string,
    url: Option<string>,
    fileId: Option<string>,
    snippet: Option<string>,
    excerpt: string)

  /** A file attached to a session or a message being composed. */
  datatype UploadRef = UploadRef(id: string, name: string, mime: string, size: int)

  datatype Message = Message(
    id: string,
    role: Role,
    content: string,
    timestamp: Date,
    citations: Option<seq<Citation>>,
    isStreaming: Option<bool>)
  {
    /** `message.isStreaming` read as a condition (`undefined` is falsy). */
    predicate Streaming() {
      isStreaming == Some(true)
    }
  }

  /**
   * A chat session. `prefillContent` is not part of the declared TypeScript
   * type, but the store writes it on creation and the composer reads it.
   */
  datatype Session = Session(
    id: string,
    title: string,
    messages: seq<Message>,
    createdAt: Date,
    updatedAt: Date,
    jurisdiction: Option<string>,
    systemPrompt: Option<string>,
    attachments: Option<seq<UploadRef>>,
    prefillContent: Option<string>)

  /** The icon shown beside a file: a picture, a text document, or a plain file. */
  datatype FileIcon = ImageIcon | TextIcon | GenericIcon

  datatype Capabilities = Capabilities(chat: bool, files: bool, voice: bool)

  /** The connection settings the client is built from. The temperature is a real; floating point is not modelled. */
  datatype ChatSettings = ChatSettings(
    baseUrl: string,
    apiKey: string,
    model: string,
    temperature: real,
    maxTokens: int,
    timeout: int,
    capabilities: Option<Capabilities>)
}
