/**
  lib/csv/sparql-exporter.js: the paginated CSV export. Pages of 1000 rows
  are requested at offsets 0, 1000, 2000, … and appended to `<file>.tmp`,
  keeping the column header of the first page only and dropping empty
  lines, until a page contributes nothing; the temporary file is then
  renamed to `file`.
*/
module CsvExporter {
  import opened Text
  import opened Files
  import Env

  const BATCH_SIZE: nat := 1000

  /**
    The SPARQL endpoint as the exporter sees it, answering page queries of
    the configured SELECT query in the SPARQL 1.1 CSV results format: the
    header line of variable names, then the solutions in [offset,
    offset + limit) of one fixed solution sequence (LIMIT and OFFSET as in
    sections 15.4 and 15.5 of SPARQL 1.1 Query Language), then the empty
    piece that follows the final line break. The response is already cut
    into lines. Other query texts get an empty answer.
  */
  datatype SliceEndpoint = SliceEndpoint(query: string, header: string, rows: seq<string>)
  {
    /**
      The header names at least one variable and no solution is serialised
      as an empty line. The second half is an assumption on the endpoint,
      not a property of the format: in a one-column result a solution whose
      value is unbound or the empty string is an empty line.
    */
    predicate Valid()
    {
      header != "" && forall i :: 0 <= i < |rows| ==> rows[i] != ""
    }

    function Window(limit: nat, offset: nat): seq<string>
    {
      rows[Min(offset, |rows|)..Min(offset + limit, |rows|)]
    }

    function Answer(text: string): seq<string>
    {
      match ParsePaginated(text, query)
      case Some((limit, offset)) => [header] + Window(limit, offset) + [""]
      case None => []
    }
  }

  /** Each line followed by a newline, as written to the file. */
  function Terminated(lines: seq<string>): seq<string>
  {
    seq(|lines|, i requires 0 <= i < |lines| => lines[i] + "\n")
  }

  lemma TerminatedConcat(a: seq<string>, b: seq<string>)
    ensures Terminated(a) + Terminated(b) == Terminated(a + b)
  {
  }

  /** Whether `appendBatch` writes line `i`: line 0 only when the header is wanted, and never an empty line. */
  predicate Keeps(lines: seq<string>, i: nat, writeColumnHeader: bool)
    requires i < |lines|
  {
    !(i == 0 && !writeColumnHeader) && |lines[i]| > 0
  }

  /** What `appendBatch` has written after processing the first `n` lines. */
  function KeptUpTo(lines: seq<string>, n: nat, writeColumnHeader: bool): seq<string>
    requires n <= |lines|
  {
    if n == 0 then []
    else KeptUpTo(lines, n - 1, writeColumnHeader)
         + (if Keeps(lines, n - 1, writeColumnHeader) then [lines[n - 1] + "\n"] else [])
  }

  function Kept(lines: seq<string>, writeColumnHeader: bool): seq<string>
  {
    KeptUpTo(lines, |lines|, writeColumnHeader)
  }

  lemma {:induction false} KeptUpToPage(header: string, window: seq<string>, writeColumnHeader: bool, n: nat)
    requires header != "" && forall i :: 0 <= i < |window| ==> window[i] != ""
    requires 1 <= n <= |window| + 1
    ensures KeptUpTo([header] + window + [""], n, writeColumnHeader)
            == (if writeColumnHeader then [header + "\n"] else []) + Terminated(window[..n - 1])
  {
    var lines := [header] + window + [""];
    if n > 1 {
      KeptUpToPage(header, window, writeColumnHeader, n - 1);
      assert lines[n - 1] == window[n - 2];
      assert window[..n - 1] == window[..n - 2] + [window[n - 2]];
      TerminatedConcat(window[..n - 2], [window[n - 2]]);
    }
  }

  /**
    The lines kept from one page: the header when it is wanted, then every
    row of the window followed by a newline; the empty piece after the last
    line break is dropped.
  */
  lemma KeptPage(header: string, window: seq<string>, writeColumnHeader: bool)
    requires header != "" && forall i :: 0 <= i < |window| ==> window[i] != ""
    ensures Kept([header] + window + [""], writeColumnHeader)
            == (if writeColumnHeader then [header + "\n"] else []) + Terminated(window)
  {
    var lines := [header] + window + [""];
    KeptUpToPage(header, window, writeColumnHeader, |window| + 1);
    assert window[..|window|] == window;
    assert lines[|window| + 1] == "";
  }

  /**
    The write loop of `appendBatch`: appends the kept lines of one answer to
    `file`, one at a time, and counts them.
  */
  method AppendLines(fs: FileSystem, file: Path, lines: seq<string>, writeColumnHeader: bool)
    returns (nbOfRecords: nat)
    modifies fs
    ensures fs.files == old(fs.files)[file := old(fs.Contents(file)) + Kept(lines, writeColumnHeader)]
    ensures nbOfRecords == |Kept(lines, writeColumnHeader)|
  {
    fs.Open(file);
    assert old(fs.Contents(file)) + KeptUpTo(lines, 0, writeColumnHeader) == old(fs.Contents(file));
    var lineNb := 0;
    nbOfRecords := 0;
    while lineNb < |lines|
      invariant 0 <= lineNb <= |lines|
      invariant fs.files == old(fs.files)[file := old(fs.Contents(file)) + KeptUpTo(lines, lineNb, writeColumnHeader)]
      invariant nbOfRecords == |KeptUpTo(lines, lineNb, writeColumnHeader)|
    {
      var line := lines[lineNb];
      ghost var written := fs.Contents(file);
      ghost var kept := KeptUpTo(lines, lineNb, writeColumnHeader);
      if lineNb == 0 && !writeColumnHeader {
        // the column header of a later page
        assert KeptUpTo(lines, lineNb + 1, writeColumnHeader) == kept + [] == kept;
      } else if |line| == 0 {
        // an empty line
        assert KeptUpTo(lines, lineNb + 1, writeColumnHeader) == kept + [] == kept;
      } else {
        fs.Append(file, line + "\n");
        assert KeptUpTo(lines, lineNb + 1, writeColumnHeader) == kept + [line + "\n"];
        assert written + [line + "\n"] == old(fs.Contents(file)) + (kept + [line + "\n"]);
        nbOfRecords := nbOfRecords + 1;
      }
      lineNb := lineNb + 1;
    }
  }

  /**
    `appendBatch`: sends the page query for [offset, offset + limit), appends
    the kept lines of the answer to `file`, and reports whether it wrote any.
  */
  method AppendBatch(fs: FileSystem, file: Path, query: string, offset: nat, limit: nat,
                     writeColumnHeader: bool, endpoint: SliceEndpoint)
    returns (hasRecords: bool)
    modifies fs
    ensures fs.files == old(fs.files)[file := old(fs.Contents(file))
              + Kept(endpoint.Answer(Paginated(query, limit, offset)), writeColumnHeader)]
    ensures hasRecords == (|Kept(endpoint.Answer(Paginated(query, limit, offset)), writeColumnHeader)| > 0)
  {
    var lines := endpoint.Answer(Paginated(query, limit, offset));
    var nbOfRecords := AppendLines(fs, file, lines, writeColumnHeader);
    hasRecords := nbOfRecords > 0;
  }

  /** The complete export: the header once, then every row once, in order. */
  function CsvOutput(endpoint: SliceEndpoint): seq<string>
  {
    [endpoint.header + "\n"] + Terminated(endpoint.rows)
  }

  /**
    How many page queries `exportAsync` sends for `n` rows: one per started
    thousand rows (the first page is sent even when there are none), and
    then the page that comes back empty.
  */
  function CsvBatchCount(n: nat): nat
  {
    (if n == 0 then 1 else (n + BATCH_SIZE - 1) / BATCH_SIZE) + 1
  }

  /** The loop stops after the first page that adds nothing, so it sends CsvBatchCount(n) pages. */
  lemma CsvBatchCountOfStop(n: nat, k: nat)
    requires k >= 2 && BATCH_SIZE * (k - 1) >= n
    requires k == 2 || BATCH_SIZE * (k - 2) < n
    ensures k == CsvBatchCount(n)
  {
    if n > 0 {
      var m := (n + BATCH_SIZE - 1) / BATCH_SIZE;
      assert BATCH_SIZE * m <= n + BATCH_SIZE - 1 < BATCH_SIZE * (m + 1);
    }
  }

  /** The temporary file's new part once the pages before `offset` are appended. */
  function WrittenUpTo(endpoint: SliceEndpoint, offset: nat): seq<string>
  {
    [endpoint.header + "\n"] + Terminated(endpoint.rows[..Min(offset, |endpoint.rows|)])
  }

  /**
    One iteration of the export loop: the page at `offset` adds something
    exactly when it is the first page or starts before the last row, and it
    extends what was written by the rows of its window.
  */
  lemma PageStep(endpoint: SliceEndpoint, offset: nat)
    requires endpoint.Valid()
    ensures var kept := Kept(endpoint.Answer(Paginated(endpoint.query, BATCH_SIZE, offset)), offset == 0);
      && (|kept| > 0 <==> (offset == 0 || offset < |endpoint.rows|))
      && (offset == 0 ==> kept == WrittenUpTo(endpoint, BATCH_SIZE))
      && (offset > 0 ==> WrittenUpTo(endpoint, offset) + kept == WrittenUpTo(endpoint, offset + BATCH_SIZE))
  {
    var rows, n := endpoint.rows, |endpoint.rows|;
    var window := endpoint.Window(BATCH_SIZE, offset);
    ParsePaginatedRoundTrip(endpoint.query, BATCH_SIZE, offset);
    assert endpoint.Answer(Paginated(endpoint.query, BATCH_SIZE, offset)) == [endpoint.header] + window + [""];
    forall i | 0 <= i < |window|
      ensures window[i] != ""
    {
      assert window[i] == rows[Min(offset, n) + i];
    }
    KeptPage(endpoint.header, window, offset == 0);
    assert rows[..Min(offset, n)] + window == rows[..Min(offset + BATCH_SIZE, n)];
    TerminatedConcat(rows[..Min(offset, n)], window);
    if offset == 0 {
      assert rows[..Min(offset, n)] == [];
    }
  }

  /**
    One round of the export loop: appends the page at `offset` to the
    temporary file, which then holds the header and every row before
    `offset + BATCH_SIZE`, and reports whether the page added anything.
  */
  method ExportPage(fs: FileSystem, tmpFile: Path, endpoint: SliceEndpoint, offset: nat, ghost before: seq<string>)
    returns (hasNext: bool)
    requires endpoint.Valid()
    requires fs.Contents(tmpFile) == before + (if offset == 0 then [] else WrittenUpTo(endpoint, offset))
    modifies fs
    ensures hasNext == (offset == 0 || offset < |endpoint.rows|)
    ensures fs.files == old(fs.files)[tmpFile := before + WrittenUpTo(endpoint, offset + BATCH_SIZE)]
  {
    PageStep(endpoint, offset);
    ghost var kept := Kept(endpoint.Answer(Paginated(endpoint.query, BATCH_SIZE, offset)), offset == 0);
    hasNext := AppendBatch(fs, tmpFile, endpoint.query, offset, BATCH_SIZE, offset == 0, endpoint);
    if offset == 0 {
      assert kept == WrittenUpTo(endpoint, offset + BATCH_SIZE);
      assert fs.Contents(tmpFile) == before + [] + kept;
    } else {
      assert (before + WrittenUpTo(endpoint, offset)) + kept == before + (WrittenUpTo(endpoint, offset) + kept);
      assert WrittenUpTo(endpoint, offset) + kept == WrittenUpTo(endpoint, offset + BATCH_SIZE);
    }
    assert fs.Contents(tmpFile) == before + WrittenUpTo(endpoint, offset + BATCH_SIZE);
  }

  /**
    `exportAsync`: reads the configured query, appends pages at offsets 0,
    1000, 2000, … to `<file>.tmp` until a page adds nothing, then renames
    the temporary file to `file`. Under the slice endpoint the result is the
    previous temporary contents (append mode keeps them), one header line
    and every row exactly once, in order; `sent` is the list of page queries.
  */
  method ExportAsync(fs: FileSystem, file: Path, endpoint: SliceEndpoint) returns (ghost sent: seq<string>)
    requires Env.CSV_EXPORT_SPARQL_FILE in fs.files
    requires endpoint.query == Flatten(fs.files[Env.CSV_EXPORT_SPARQL_FILE])
    requires endpoint.Valid()
    modifies fs
    ensures |sent| == CsvBatchCount(|endpoint.rows|)
    ensures forall i :: 0 <= i < |sent| ==> sent[i] == Paginated(endpoint.query, BATCH_SIZE, BATCH_SIZE * i)
    ensures fs.files == (old(fs.files) - {Tmp(file)})[file := old(fs.Contents(Tmp(file))) + CsvOutput(endpoint)]
  {
    var tmpFile := Tmp(file);
    var query := Flatten(fs.files[Env.CSV_EXPORT_SPARQL_FILE]);
    var offset := 0;
    var hasNext := true;
    sent := [];
    ghost var before := fs.Contents(tmpFile);
    ghost var n := |endpoint.rows|;
    while hasNext
      invariant offset == BATCH_SIZE * |sent|
      invariant forall i :: 0 <= i < |sent| ==> sent[i] == Paginated(query, BATCH_SIZE, BATCH_SIZE * i)
      invariant |sent| == 0 ==> hasNext && fs.files == old(fs.files)
      invariant |sent| > 0 ==> fs.files == old(fs.files)[tmpFile := before + WrittenUpTo(endpoint, offset)]
      invariant |sent| > 0 ==> (hasNext <==> (|sent| == 1 || offset - BATCH_SIZE < n))
      invariant |sent| >= 2 ==> (|sent| == 2 || offset - 2 * BATCH_SIZE < n)
      invariant hasNext ==> offset <= n + BATCH_SIZE
      decreases if hasNext then n + 2 * BATCH_SIZE - offset else 0
    {
      hasNext := ExportPage(fs, tmpFile, endpoint, offset, before);
      sent := sent + [Paginated(query, BATCH_SIZE, offset)];
      offset := offset + BATCH_SIZE;
    }
    CsvBatchCountOfStop(n, |sent|);
    assert endpoint.rows[..n] == endpoint.rows;
    assert WrittenUpTo(endpoint, offset) == CsvOutput(endpoint);
    var renamed := fs.Rename(tmpFile, file);
  }
}
