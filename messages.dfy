/**
 * Chat messages as the summariser sees them, and the two read-only queries
 * it makes of them: the plain text of a message and the position of the
 * checkpoint's anchor message.
 */
module Messages {
  import opened Wrappers
  import opened Find
  import opened LogSanitizer

  datatype Role = User | Assistant | System | Data

  /** One typed content part; `text` is absent on non-text parts. */
  datatype Part = Part(kind: string, text: Option<string>)

  /** Message content is either a string or an ordered list of parts. */
  datatype Content = Text(body: string) | Parts(parts: seq<Part>)

  /**
   * Every other field a message carries (annotations, creation time and the
   * like). The pipeline copies them along without looking at them; only the
   * context reader sees them.
   */
  type Fields(==)

  datatype Message = Message(id: string, role: Role, content: Content, rest: Fields)

  /** The text a part contributes: its `text`, or the empty string when that is absent. */
  function PartText(part: Part): string {
    if part.text.Some? then part.text.value else ""
  }

  /**
   * `extractTextContent`: string content as it is; for parts, the text of the
   * first part typed `text`, and the empty string when there is none or its
   * text is absent or empty.
   */
  function ExtractTextContent(message: Message): (r: string)
    ensures message.content.Text? ==> r == message.content.body
    ensures message.content.Parts? && (forall i :: 0 <= i < |message.content.parts| ==> message.content.parts[i].kind != "text")
            ==> r == ""
    ensures message.content.Parts? ==>
              forall i :: 0 <= i < |message.content.parts| && message.content.parts[i].kind == "text"
                          && (forall j :: 0 <= j < i ==> message.content.parts[j].kind != "text")
                          ==> r == PartText(message.content.parts[i])
  {
    match message.content
    case Text(body) => body
    case Parts(parts) =>
      match FindFirst(parts, (p: Part) => p.kind == "text")
      case Some(i) => PartText(parts[i])
      case None => ""
  }

  /**
   * `findMessageIndex`: an empty id finds nothing; otherwise the control
   * characters are removed from the id and the least index of a message
   * carrying exactly that id is returned, or -1 when no message carries it.
   */
  function FindMessageIndex(messages: seq<Message>, chatId: string): (r: int)
    ensures -1 <= r < |messages|
    ensures chatId == "" ==> r == -1
    ensures chatId != "" && 0 <= r ==>
              messages[r].id == StripControl(chatId)
              && forall j :: 0 <= j < r ==> messages[j].id != StripControl(chatId)
    ensures chatId != "" && r == -1 ==> forall j :: 0 <= j < |messages| ==> messages[j].id != StripControl(chatId)
  {
    if chatId == "" then -1
    else
      var sanitizedChatId := StripControl(chatId);
      match FindFirst(messages, (m: Message) => m.id == sanitizedChatId)
      case Some(i) => i
      case None => -1
  }
}
