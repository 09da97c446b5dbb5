/** The chat-completion request body the clients send: a model, a list of
    messages whose content is either plain text or a list of typed blocks,
    and the fixed sampling settings. */
module Chat {

  /** The content blocks the source builds, one constructor per object shape. */
  datatype Block =
    | TextBlock(text: string)                         // { type: "text", text }
    | DocumentUrlBlock(documentUrl: string)           // { type: "document_url", document_url }
    | ImageUrlBlock(imageUrl: string)                 // { type: "image_url", image_url }
    | ImageUrlLinkBlock(url: string)                  // { type: "image_url", url }
    | ImageDataBlock(data: string)                    // { type: "image", data }
    | ImageSourceBlock(sourceType: string, data: string) // { type: "image", source: { type, data } }

  datatype Content = PlainContent(text: string) | Blocks(blocks: seq<Block>)

  datatype Message = Message(role: string, content: Content)

  datatype ChatBody = ChatBody(model: string, messages: seq<Message>, temperature: real, maxTokens: nat)

  /** Every request the clients build uses this temperature and output cap. */
  const TEMPERATURE: real := 0.1
  const MAX_TOKENS: nat := 4000

  /** The single user message with an instruction and a document block. */
  function DocumentMessage(instruction: string, document: Block): Message {
    Message("user", Blocks([TextBlock(instruction), document]))
  }
}
