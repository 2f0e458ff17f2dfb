/** The records the handler reads and builds: the fields of the media
    server's webhook payload that the handler inspects, and the body of
    a chat message posted to the incoming-webhook URL. */
module Data {
  import opened Wrappers

  /** The `Metadata` object of a payload: the item that the event is about.
      For an episode, the parent is the season and the grandparent the show. */
  datatype Metadata = Metadata(
    itemType: string,
    title: string,
    parentTitle: string,
    grandparentTitle: string)

  /** A parsed webhook payload. */
  datatype PlexMessage = PlexMessage(event: string, metadata: Metadata)

  /** A text object of a message block. */
  datatype SlackText = SlackText(text: string, textType: string)

  /** One element of a context block. */
  datatype SlackElement = SlackElement(elementType: string, text: string)

  /** A message block; `text` is absent (nil in Go) for blocks that
      have none, and `elements` is empty unless the block is a context. */
  datatype SlackBlock = SlackBlock(
    blockType: string,
    text: Option<SlackText>,
    elements: seq<SlackElement>)

  /** The posted message: a summary text and its ordered blocks. */
  datatype SlackRequestBody = SlackRequestBody(text: string, blocks: seq<SlackBlock>)
}
