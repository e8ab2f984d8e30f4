/** The filesystem the content walkers read, as an immutable tree value.
    `os.ReadDir` of a directory gives its listing (or an error), and
    `os.ReadFile` of a file gives its bytes (or an error). */
module Fs {
  import opened Base

  /** A directory entry name never contains a path separator. */
  type FileName = s: string | '/' !in s

  /** What `os.ReadDir` gives for a directory: `Missing` is an error for
      which `os.IsNotExist` holds, `Unreadable` any other error, `Entries`
      the entries in the order the listing returns them (by file name). */
  datatype Listing =
    | Missing
    | Unreadable
    | Entries(entries: seq<Entry>)

  /** A file carries its contents, or `None` when reading it fails. */
  datatype Entry =
    | File(name: FileName, data: Option<string>)
    | Dir(name: FileName, listing: Listing)

  /** `fmt.Sprintf("%v/%v", dir, name)`. */
  function Join(dir: string, name: string): string {
    dir + "/" + name
  }

  /** Number of entries a listing holds (zero when it is an error). */
  function Width(l: Listing): nat {
    if l.Entries? then |l.entries| else 0
  }
}
