/**
  lib/export-file.js: recording the metadata of one produced export file.
  The fresh uuid, the timestamp and the size `fs.stat` reports are inputs.
*/
module ExportFiles {
  import opened Store

  const EXPORT_URI_BASE: string := "http://mu-exporter/exports/"

  /** The object `insertNewExportFile` returns: it carries no filename. */
  datatype ExportFile = ExportFile(uri: Uri, id: string, format: string, size: nat, created: string)

  function ExportUri(id: string): (u: Uri)
    ensures |u| >= |EXPORT_URI_BASE| && u[..|EXPORT_URI_BASE|] == EXPORT_URI_BASE && u[|EXPORT_URI_BASE|..] == id
  {
    EXPORT_URI_BASE + id
  }

  /** `file` without the `/` characters it ends with. */
  function TrimTrailingSlashes(file: string): (r: string)
    ensures |r| <= |file| && r == file[..|r|]
    ensures r == "" || r[|r| - 1] != '/'
    ensures forall i :: |r| <= i < |file| ==> file[i] == '/'
  {
    if |file| > 0 && file[|file| - 1] == '/' then TrimTrailingSlashes(file[..|file| - 1]) else file
  }

  /** The part of `file` after its last `/`; empty when `file` ends in `/`. */
  function LastSegment(file: string): (r: string)
    ensures '/' !in r
  {
    if |file| == 0 || file[|file| - 1] == '/' then ""
    else LastSegment(file[..|file| - 1]) + [file[|file| - 1]]
  }

  /**
    `path.basename(file)` on POSIX paths: trailing separators are dropped
    first, then the part after the last `/` is taken.
  */
  function Basename(file: string): string
  {
    LastSegment(TrimTrailingSlashes(file))
  }

  /**
    The base name is the last segment of the path once its trailing slashes
    are dropped: a suffix of that trimmed path, either all of it or preceded
    by `/`, and free of `/`.
  */
  lemma {:induction false} BasenameIsLastSegment(file: string)
    ensures var t := TrimTrailingSlashes(file);
      && '/' !in Basename(file)
      && |Basename(file)| <= |t| && t[|t| - |Basename(file)|..] == Basename(file)
      && (Basename(file) == t || t[|t| - |Basename(file)| - 1] == '/')
  {
    LastSegmentIsSuffix(TrimTrailingSlashes(file));
  }

  lemma {:induction false} LastSegmentIsSuffix(file: string)
    ensures |LastSegment(file)| <= |file| && file[|file| - |LastSegment(file)|..] == LastSegment(file)
    ensures LastSegment(file) == file || file[|file| - |LastSegment(file)| - 1] == '/'
  {
    if |file| > 0 && file[|file| - 1] != '/' {
      var n := |file| - 1;
      LastSegmentIsSuffix(file[..n]);
      var r := LastSegment(file[..n]);
      assert file[..n][n - |r|..] + [file[n]] == file[n - |r|..];
    }
  }

  /** A trailing `/` does not change the base name: `/a/b/` and `/a/b` both give `b`. */
  lemma TrailingSlashIgnored(file: string)
    ensures Basename(file + "/") == Basename(file)
  {
    assert (file + "/")[..|file + "/"| - 1] == file;
  }

  /** The base name of `dir/name` is `name` for a non-empty `name` without `/`, and that of `dir` otherwise. */
  lemma BasenameOfJoin(dir: string, name: string)
    requires '/' !in name
    ensures Basename(dir + "/" + name) == if name == "" then Basename(dir) else name
  {
    if name == "" {
      assert dir + "/" + name == dir + "/";
      TrailingSlashIgnored(dir);
    } else {
      LastSegmentOfJoin(dir, name);
    }
  }

  lemma {:induction false} LastSegmentOfJoin(dir: string, name: string)
    requires '/' !in name
    ensures LastSegment(dir + "/" + name) == name
  {
    var p := dir + "/" + name;
    if |name| > 0 {
      var n := |name| - 1;
      LastSegmentOfJoin(dir, name[..n]);
      assert p[..|p| - 1] == dir + "/" + name[..n];
      assert p[|p| - 1] == name[n];
      assert name[..n] + [name[n]] == name;
    } else {
      assert p[|p| - 1] == '/';
    }
  }

  /**
    Inserts one `export:Export` record for `file` under a fresh uuid and
    returns it: its URI is the export base followed by the uuid, the stored
    filename is the base name of `file`, and format and size are stored and
    returned unchanged.
  */
  method InsertNewExportFile(store: TripleStore, file: string, format: string, exportId: string, created: string, size: nat)
    returns (f: ExportFile)
    modifies store
    ensures store.exportFiles == old(store.exportFiles)[ExportUri(exportId) := FileRecord(exportId, Basename(file), format, size, created)]
    ensures store.tasks == old(store.tasks) && store.jobs == old(store.jobs) && store.containers == old(store.containers)
    ensures f == ExportFile(ExportUri(exportId), exportId, format, size, created)
  {
    var exportUri := ExportUri(exportId);
    var filename := Basename(file);
    store.exportFiles := store.exportFiles[exportUri := FileRecord(exportId, filename, format, size, created)];
    f := ExportFile(exportUri, exportId, format, size, created);
  }
}
