/**
  The file system as the exporters use it: append-mode write streams,
  `fs.rename` and `fs.readFile`. A file is the sequence of chunks written to
  it; its text is their concatenation.
*/
module Files {

  type Path = string

  /** The temporary file an exporter writes before renaming (`${file}.tmp`). */
  function Tmp(file: Path): (t: Path)
    ensures t != file
  {
    assert |file + ".tmp"| != |file|;
    file + ".tmp"
  }

  /** The text of a file made of `chunks`. */
  function Flatten(chunks: seq<string>): string
  {
    if |chunks| == 0 then "" else Flatten(chunks[..|chunks| - 1]) + chunks[|chunks| - 1]
  }

  class FileSystem {
    var files: map<Path, seq<string>>

    constructor (initial: map<Path, seq<string>>)
      ensures files == initial
    {
      files := initial;
    }

    /** What has been written to `p` so far; nothing for a missing file. */
    function Contents(p: Path): seq<string>
      reads this
    {
      if p in files then files[p] else []
    }

    /** `fs.createWriteStream(p, { flags: 'a' })`: creates `p` when missing, keeps its contents. */
    method Open(p: Path)
      modifies this
      ensures files == old(files)[p := old(Contents(p))]
    {
      files := files[p := Contents(p)];
    }

    /** One write on an append-mode stream. */
    method Append(p: Path, chunk: string)
      modifies this
      ensures files == old(files)[p := old(Contents(p)) + [chunk]]
    {
      files := files[p := Contents(p) + [chunk]];
    }

    /** `fs.rename(from, to)`: replaces `to`; raises (ok is false) when `from` is missing. */
    method Rename(from: Path, to: Path) returns (ok: bool)
      modifies this
      ensures ok == (from in old(files))
      ensures ok ==> files == (old(files) - {from})[to := old(files)[from]]
      ensures !ok ==> files == old(files)
    {
      ok := from in files;
      if ok {
        files := (files - {from})[to := files[from]];
      }
    }
  }
}
