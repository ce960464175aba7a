/**
 * The records the application passes around: clients, media records and
 * the folders the admin page groups them in.
 *
 * The application has two shapes of media record, the locally stored one
 * (`type`, `name`, `client`, `animation`) and the backend row (`file_type`,
 * `original_name`, `animation_type`, `animation_duration`); the player and
 * the renderer read fields of both. `MediaFile` carries the union of the
 * fields. A field a shape lacks is "" (strings), 0 (numbers), false
 * (`hidden`) or `None` (`type`): the code only reads such fields through
 * `||`, `?.` and `!`, which treat those values exactly like `undefined`.
 */
module Types {
  import opened Seqs

  datatype MediaKind = Image | Video

  datatype MediaFile = MediaFile(
    id: string,
    name: string,          // stored name (local shape) / file_name (backend shape)
    originalName: string,
    kind: Option<MediaKind>, // `type`; absent on backend rows
    fileType: string,      // mime type `file_type`; "" on local records
    folder: string,
    client: string,
    url: string,
    size: int,
    hidden: bool,
    animation: string,     // local `animation`
    animationType: string, // backend `animation_type`
    animationDuration: int // backend `animation_duration`, 0 when absent
  )

  datatype Client = Client(id: string, name: string, password: string, prefix: string)

  /** A client being typed into a form: a client without its id. */
  datatype ClientForm = ClientForm(name: string, prefix: string, password: string)

  const EmptyForm: ClientForm := ClientForm("", "", "")

  datatype MediaFolder = MediaFolder(name: string, media: seq<MediaFile>)

  /** A folder's record count and how many of them are images and videos. */
  datatype FolderStats = FolderStats(total: nat, images: nat, videos: nat)

  /** A file chosen in the browser (`File`): its name, mime type and size. */
  datatype FileInfo = FileInfo(name: string, mimeType: string, size: int)
}
