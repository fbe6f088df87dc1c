// The data every channel adapter hands to the gateway: an inbound message
// normalised from an external platform, with its downloaded attachments.

module ChannelBase {
  import opened Text

  /** Largest attachment an adapter keeps: 20 MiB. */
  const MaxAttachmentSize: nat := 20 * 1024 * 1024

  const AttachImage: string := "image"
  const AttachFile: string := "file"

  /** A downloaded attachment: its kind, name (when the adapter gave one), bytes, MIME type and
      the platform's key for it. */
  datatype Attachment = Attachment(kind: string, fileName: Option<string>, data: seq<byte>,
                                   mimeType: string, key: string)

  datatype InboundMessage = InboundMessage(
    channelId: string,
    chatId: string,
    senderId: string,
    messageId: Option<string>,
    text: string,
    attachments: seq<Attachment>,
    chatType: string,
    messageType: string)
}
