/** The browser inputs the two front ends filter: files from the picker or a
    drop, and clipboard items from a paste. A file is known by its MIME type. */
module BrowserInput {
  import opened Wrappers
  import opened JsStrings

  /** A `File`, by its `type`. */
  datatype FileInfo = FileInfo(mimeType: string)

  /** A clipboard `DataTransferItem`: its `type`, and what `getAsFile()` returns
      (`None` for an item that holds a string). */
  datatype ClipboardItem = ClipboardItem(itemType: string, file: Option<FileInfo>)

  /** What becomes of a file handed on: a `FileReader` starts reading it, an
      `alert` refuses it, or nothing happens at all. */
  datatype FileOutcome = ReadStarted | Alerted | Ignored

  const ImagePrefix := "image/"

  predicate IsImageType(t: string) {
    StartsWith(t, ImagePrefix)
  }

  /** `file && file.type.startsWith('image/')`. */
  predicate IsImageFile(file: Option<FileInfo>) {
    file.Some? && IsImageType(file.value.mimeType)
  }

  /** `files[0]`: `undefined` (here `None`) for an empty list. */
  function FirstFile(files: seq<FileInfo>): Option<FileInfo> {
    if |files| > 0 then Some(files[0]) else None
  }
}
