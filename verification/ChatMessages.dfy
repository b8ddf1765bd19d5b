/** The message type every part of the chat shares (app/services/llm/schema.py). */
module ChatMessages {
  import opened Wrappers

  datatype Attachment = ImageFile(content: string, mime: Option<string>) | TextFile(content: string)

  /** Role is one of "system", "user", "assistant", "ai". */
  datatype ChatMessage = ChatMessage(role: string, text: string, attachments: seq<Attachment>)

  const USER := "user"
  const ASSISTANT := "assistant"

  function FromText(role: string, text: string): ChatMessage {
    ChatMessage(role, text, [])
  }
}
