/** The application's record types: transcript entries, file attachments and screens. */
module ChatTypes {
  import opened Wrappers

  /** `Message.type`. */
  datatype EntryType = Chat | File | System

  /** A file as the transcript keeps it; `data` is the base 64 of the file bytes. */
  datatype FileAttachment = FileAttachment(name: string, size: int, mimeType: string, data: string)

  /** One transcript entry (the random `id` is not modelled). */
  datatype Message = Message(
    kind: EntryType,
    content: string,
    sender: string,
    timestamp: int,
    isOwn: bool,
    file: Option<FileAttachment>)

  /** `AppScreen`. */
  datatype AppScreen = Home | Create | Join | ChatScreen
}
