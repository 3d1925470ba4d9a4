/** Files dropped onto the input and update windows. */
module Files {
  import opened Wrappers
  import Text

  /**
   * A dropped file as a window keeps it. `hasFileObject` says whether the
   * browser's `File` object came with it; the object itself is not modelled.
   */
  datatype DroppedFile = DroppedFile(
    name: string,
    path: string,
    size: int,
    fileType: string,
    preview: Option<string>,
    hasFileObject: bool)

  /** `name.split('.').pop()`: the text after the last dot, or the whole name when it has none. */
  function Extension(name: string): string {
    Text.AfterLast(name, '.')
  }
}
