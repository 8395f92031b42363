/**
  lib/ttl/type-exporter.js: the Turtle export of configured resource types.
  For each type the exporter counts the matching resources, then appends
  CONSTRUCT pages of 1000 resources at offsets 0, 1000, … while the offset
  is below the count, all to `<file>.tmp`, and finally renames the
  temporary file to `file`. The query texts are built from the type
  configuration by the pure builders below.
*/
module TtlExporter {
  import opened Wrappers
  import opened Text
  import opened Files

  const BATCH_SIZE: nat := 1000

  /** One entry of `types` in the export configuration; members missing from the JSON are `None`. */
  datatype TypeConfig = TypeConfig(
    rdfType: string,
    requiredProperties: Option<seq<string>>,
    optionalProperties: Option<seq<string>>,
    additionalFilter: Option<string>)

  /** The parsed export configuration: the `prefixes` object as its entries in key order, and the types. */
  datatype ExportConfig = ExportConfig(prefixes: seq<(string, string)>, types: seq<TypeConfig>)

  predicate OneLine(s: string)
  {
    '\n' !in s
  }

  /** A configuration whose names and filters fit on one line each, so the builders' lines can be read back. */
  predicate OneLineConfig(tc: TypeConfig)
  {
    && OneLine(tc.rdfType)
    && (forall i :: 0 <= i < |tc.requiredProperties.GetOr([])| ==> OneLine(tc.requiredProperties.GetOr([])[i]))
    && (forall i :: 0 <= i < |tc.optionalProperties.GetOr([])| ==> OneLine(tc.optionalProperties.GetOr([])[i]))
    && OneLine(tc.additionalFilter.GetOr(""))
  }

  /** `varName`: the property name with every `:` removed. */
  function VarName(prop: string): (r: string)
    ensures ':' !in r
    ensures ':' !in prop ==> r == prop
  {
    Without(prop, {':'})
  }

  /** `varName` keeps every other character, as often as it occurs and in its order. */
  lemma VarNameKeepsOthers(prop: string, c: char)
    requires c != ':'
    ensures multiset(VarName(prop))[c] == multiset(prop)[c]
    ensures forall a, b :: prop == a + b ==> VarName(prop) == VarName(a) + VarName(b)
  {
    WithoutKeepsOthers(prop, {':'}, c);
    forall a, b | prop == a + b
      ensures VarName(prop) == VarName(a) + VarName(b)
    {
      WithoutConcat(a, b, {':'});
    }
  }

  function PrefixLine(entry: (string, string)): string
  {
    "PREFIX " + entry.0 + ": <" + entry.1 + ">"
  }

  /** `prefixStatements`: one PREFIX declaration per entry, in order, separated by newlines. */
  function PrefixStatements(prefixes: seq<(string, string)>): string
  {
    Join(seq(|prefixes|, i requires 0 <= i < |prefixes| => PrefixLine(prefixes[i])), "\n")
  }

  const TYPE_PATTERN_SUBJECT: string := "?resource a "
  const OPTIONAL_PATTERN: string := "?resource ?optional_pred ?optional_obj."

  function TypeLine(rdfType: string): string
  {
    TYPE_PATTERN_SUBJECT + rdfType + "."
  }

  /** The triple pattern of one required property, its object named after the property. */
  function RequiredLine(prop: string): string
  {
    "?resource " + prop + " " + VarName(prop) + " ."
  }

  function RequiredLines(props: seq<string>): (r: seq<string>)
    ensures |r| == |props|
  {
    seq(|props|, i requires 0 <= i < |props| => RequiredLine(props[i]))
  }

  function FilterLine(optionalProperties: seq<string>): string
  {
    "FILTER(?optional_pred IN (" + Join(optionalProperties, ", ") + "))"
  }

  /** `constructStatementsForType`. */
  function ConstructStatementsForType(tc: TypeConfig): string
  {
    Join([TypeLine(tc.rdfType), OPTIONAL_PATTERN] + RequiredLines(tc.requiredProperties.GetOr([])), "\n")
  }

  /** Whether the WHERE statements restrict the optional predicates. */
  predicate FiltersOptional(tc: TypeConfig, includeOpt: bool)
  {
    includeOpt && tc.optionalProperties.Some? && |tc.optionalProperties.value| > 0
  }

  /**
    The array `whereStatementsForType` joins. A missing `additionalFilter`
    is `undefined` in the array, which `join` renders as the empty string.
  */
  function WhereLines(tc: TypeConfig, includeOpt: bool): seq<string>
  {
    [TypeLine(tc.rdfType)]
    + RequiredLines(tc.requiredProperties.GetOr([]))
    + (if FiltersOptional(tc, includeOpt)
       then [OPTIONAL_PATTERN, FilterLine(tc.optionalProperties.value)]
       else [])
    + [tc.additionalFilter.GetOr("")]
  }

  /** `whereStatementsForType`. */
  function WhereStatementsForType(tc: TypeConfig, includeOpt: bool): string
  {
    Join(WhereLines(tc, includeOpt), "\n")
  }

  lemma RequiredLinesOneLine(props: seq<string>)
    requires forall i :: 0 <= i < |props| ==> OneLine(props[i])
    ensures forall i :: 0 <= i < |props| ==> OneLine(RequiredLines(props)[i])
  {
    forall i | 0 <= i < |props|
      ensures OneLine(RequiredLines(props)[i])
    {
      WithoutKeepsOthers(props[i], {':'}, '\n');
    }
  }

  /**
    The PREFIX block read back line by line: one `PREFIX k: <v>` line per
    entry, in key order, when keys and values fit on one line.
  */
  lemma PrefixStatementsLines(prefixes: seq<(string, string)>)
    requires |prefixes| >= 1
    requires forall i :: 0 <= i < |prefixes| ==> OneLine(prefixes[i].0) && OneLine(prefixes[i].1)
    ensures var lines := Split(PrefixStatements(prefixes), '\n');
      && |lines| == |prefixes|
      && forall i :: 0 <= i < |prefixes| ==> lines[i] == "PREFIX " + prefixes[i].0 + ": <" + prefixes[i].1 + ">"
  {
    var lines := seq(|prefixes|, i requires 0 <= i < |prefixes| => PrefixLine(prefixes[i]));
    SplitJoin(lines, '\n');
  }

  /**
    The CONSTRUCT template read back line by line: the type triple first,
    then the optional-predicate pattern, then one pattern per required
    property, in order, whose object is the property without its colons.
  */
  lemma ConstructStatementsLines(tc: TypeConfig)
    requires OneLineConfig(tc)
    ensures var lines := Split(ConstructStatementsForType(tc), '\n');
      var req := tc.requiredProperties.GetOr([]);
      && |lines| == 2 + |req|
      && lines[0] == "?resource a " + tc.rdfType + "."
      && lines[1] == "?resource ?optional_pred ?optional_obj."
      && forall i :: 0 <= i < |req| ==> lines[2 + i] == "?resource " + req[i] + " " + VarName(req[i]) + " ."
  {
    var req := tc.requiredProperties.GetOr([]);
    RequiredLinesOneLine(req);
    var parts := [TypeLine(tc.rdfType), OPTIONAL_PATTERN] + RequiredLines(req);
    SplitJoin(parts, '\n');
  }

  /** Every line of the WHERE statements fits on one line when the configuration does. */
  lemma WhereLinesOneLine(tc: TypeConfig, includeOpt: bool)
    requires OneLineConfig(tc)
    ensures forall i :: 0 <= i < |WhereLines(tc, includeOpt)| ==> OneLine(WhereLines(tc, includeOpt)[i])
  {
    var required := RequiredLines(tc.requiredProperties.GetOr([]));
    RequiredLinesOneLine(tc.requiredProperties.GetOr([]));
    FixedLinesOneLine(tc.rdfType);
    var opt := if FiltersOptional(tc, includeOpt) then [OPTIONAL_PATTERN, FilterLine(tc.optionalProperties.value)] else [];
    if FiltersOptional(tc, includeOpt) {
      assert tc.optionalProperties.GetOr([]) == tc.optionalProperties.value;
      FilterLineOneLine(tc.optionalProperties.value);
    }
    OneLineParts([TypeLine(tc.rdfType)], required, opt, [tc.additionalFilter.GetOr("")]);
  }

  lemma FixedLinesOneLine(rdfType: string)
    requires OneLine(rdfType)
    ensures OneLine(TypeLine(rdfType)) && OneLine(OPTIONAL_PATTERN)
  {
  }

  lemma FilterLineOneLine(optionalProperties: seq<string>)
    requires forall i :: 0 <= i < |optionalProperties| ==> OneLine(optionalProperties[i])
    ensures OneLine(FilterLine(optionalProperties))
  {
    JoinAvoids(optionalProperties, ", ", '\n');
  }

  lemma OneLineParts(a: seq<string>, b: seq<string>, c: seq<string>, d: seq<string>)
    requires forall i :: 0 <= i < |a| ==> OneLine(a[i])
    requires forall i :: 0 <= i < |b| ==> OneLine(b[i])
    requires forall i :: 0 <= i < |c| ==> OneLine(c[i])
    requires forall i :: 0 <= i < |d| ==> OneLine(d[i])
    ensures forall i :: 0 <= i < |a + b + c + d| ==> OneLine((a + b + c + d)[i])
  {
  }

  /**
    The WHERE statements read back line by line: the type line, one line
    per required property, the optional pattern and its FILTER exactly when
    optional properties are configured and wanted, and the additional filter
    (empty when missing) last.
  */
  lemma WhereStatementsLines(tc: TypeConfig, includeOpt: bool)
    requires OneLineConfig(tc)
    ensures var lines := Split(WhereStatementsForType(tc, includeOpt), '\n');
      var req := tc.requiredProperties.GetOr([]);
      var extra := if FiltersOptional(tc, includeOpt) then 2 else 0;
      && |lines| == 2 + |req| + extra
      && lines[0] == "?resource a " + tc.rdfType + "."
      && (forall i :: 0 <= i < |req| ==> lines[1 + i] == "?resource " + req[i] + " " + VarName(req[i]) + " .")
      && (FiltersOptional(tc, includeOpt) ==>
            && lines[1 + |req|] == "?resource ?optional_pred ?optional_obj."
            && lines[2 + |req|] == "FILTER(?optional_pred IN (" + Join(tc.optionalProperties.value, ", ") + "))")
      && lines[|lines| - 1] == tc.additionalFilter.GetOr("")
  {
    WhereLinesOneLine(tc, includeOpt);
    SplitJoin(WhereLines(tc, includeOpt), '\n');
  }

  /** The dataset and WHERE clause both queries of a type end with. */
  function FromWhere(tc: TypeConfig, graph: string): string
  {
    "\n      FROM <" + graph + ">\n      WHERE {\n        " + WhereStatementsForType(tc, true) + "\n      }\n    "
  }

  /** The query `countForType` sends. */
  function CountQuery(prefixes: string, tc: TypeConfig, graph: string): string
  {
    prefixes + "\n      SELECT (count(distinct(?resource)) as ?count)" + FromWhere(tc, graph)
  }

  /** The CONSTRUCT query `exportAsync` pages through for one type. */
  function TypeQuery(prefixes: string, tc: TypeConfig, graph: string): string
  {
    prefixes + "\n      CONSTRUCT {\n        " + ConstructStatementsForType(tc) + "\n      }" + FromWhere(tc, graph)
  }

  /**
    The count query and the CONSTRUCT query of a type start with the same
    prefixes and end with the same FROM and WHERE clause. The count is of
    distinct resources, while the pages window the WHERE clause's
    solutions, of which a resource has one per combination of its required
    and optional values; the two agree only when each resource has exactly
    one solution.
  */
  lemma QueriesShareWhere(prefixes: string, tc: TypeConfig, graph: string)
    ensures var c, q, w := CountQuery(prefixes, tc, graph), TypeQuery(prefixes, tc, graph), FromWhere(tc, graph);
      && |c| >= |prefixes| + |w| && |q| >= |prefixes| + |w|
      && c[..|prefixes|] == prefixes && q[..|prefixes|] == prefixes
      && c[|c| - |w|..] == w && q[|q| - |w|..] == w
  {
    var w := FromWhere(tc, graph);
    var cHead := prefixes + "\n      SELECT (count(distinct(?resource)) as ?count)";
    var qHead := prefixes + "\n      CONSTRUCT {\n        " + ConstructStatementsForType(tc) + "\n      }";
    assert CountQuery(prefixes, tc, graph) == cHead + w;
    assert TypeQuery(prefixes, tc, graph) == qHead + w;
    assert cHead[..|prefixes|] == prefixes;
    assert qHead[..|prefixes|] == prefixes;
  }

  /**
    The SPARQL endpoint as the exporter sees it: the number the count query
    reports (`parseInt` of the single binding), and the Turtle document a
    page query returns.
  */
  datatype TtlEndpoint = TtlEndpoint(count: string -> nat, construct: string -> string)

  /** `countForType`. */
  function CountForType(endpoint: TtlEndpoint, prefixes: string, tc: TypeConfig, graph: string): nat
  {
    endpoint.count(CountQuery(prefixes, tc, graph))
  }

  /** The number of pages for `count` resources: one per started thousand. */
  function Batches(count: nat): nat
  {
    (count + BATCH_SIZE - 1) / BATCH_SIZE
  }

  /** Position `j` lies in the page window [1000 i, 1000 (i + 1)). */
  predicate InWindow(i: nat, j: nat)
  {
    BATCH_SIZE * i <= j < BATCH_SIZE * (i + 1)
  }

  /** Some page window for a count of `count` holds position `j` of the solution sequence. */
  predicate Covered(count: nat, j: nat)
  {
    exists i :: 0 <= i < Batches(count) && InWindow(i, j)
  }

  /**
    The page windows for i below Batches(count) all start below `count` and
    together cover [0, count), each position in exactly one of them; there
    are none for a count of 0.
  */
  lemma WindowsCover(count: nat)
    ensures count == 0 <==> Batches(count) == 0
    ensures forall i :: 0 <= i < Batches(count) ==> BATCH_SIZE * i < count
    ensures forall j: nat :: j < count ==> Covered(count, j)
    ensures forall i: nat, k: nat, j: nat :: InWindow(i, j) && InWindow(k, j) ==> i == k
  {
    var b := Batches(count);
    assert BATCH_SIZE * b <= count + BATCH_SIZE - 1 < BATCH_SIZE * (b + 1);
    forall i | 0 <= i < b
      ensures BATCH_SIZE * i < count
    {
      assert BATCH_SIZE * i <= BATCH_SIZE * (b - 1);
    }
    forall j: nat | j < count
      ensures Covered(count, j)
    {
      var i := j / BATCH_SIZE;
      assert InWindow(i, j);
      assert BATCH_SIZE * i < BATCH_SIZE * b;
    }
    forall i: nat, k: nat, j: nat | InWindow(i, j) && InWindow(k, j)
      ensures i == k
    {
    }
  }

  /** The loop has run `k` pages when the last one started below `count` and the next would not. */
  lemma BatchesOfStop(count: nat, k: nat)
    requires BATCH_SIZE * k >= count
    requires k == 0 || BATCH_SIZE * (k - 1) < count
    ensures k == Batches(count)
  {
    var b := Batches(count);
    assert BATCH_SIZE * b <= count + BATCH_SIZE - 1 < BATCH_SIZE * (b + 1);
  }

  /** The documents of the given page queries, in order. */
  function Pages(endpoint: TtlEndpoint, sent: seq<string>): seq<string>
  {
    seq(|sent|, i requires 0 <= i < |sent| => endpoint.construct(sent[i]))
  }

  /** The page queries of the first `k` pages. */
  function PageQueries(query: string, k: nat): seq<string>
  {
    seq(k, i requires 0 <= i < k => Paginated(query, BATCH_SIZE, BATCH_SIZE * i))
  }

  /**
    The page queries sent for a count, as the endpoint reads them: the
    i-th asks for the window of 1000 solutions at offset 1000 i, and every
    window starts below the count. With `WindowsCover` these windows cover
    every position below the count, each once.
  */
  lemma PageQueriesWindows(query: string, count: nat)
    ensures var sent := PageQueries(query, Batches(count));
      && |sent| == Batches(count)
      && (forall i :: 0 <= i < |sent| ==>
            ParsePaginated(sent[i], query) == Some((BATCH_SIZE, BATCH_SIZE * i)) && BATCH_SIZE * i < count)
  {
    var sent := PageQueries(query, Batches(count));
    WindowsCover(count);
    forall i | 0 <= i < |sent|
      ensures ParsePaginated(sent[i], query) == Some((BATCH_SIZE, BATCH_SIZE * i))
    {
      ParsePaginatedRoundTrip(query, BATCH_SIZE, BATCH_SIZE * i);
    }
  }

  /** The progress figures logged after the first `k` pages: the offset reached, capped at the count. */
  function ProgressLog(count: nat, k: nat): (r: seq<nat>)
    ensures |r| == k && forall i :: 0 <= i < k ==> r[i] <= count
  {
    seq(k, i requires 0 <= i < k => Min(BATCH_SIZE * (i + 1), count))
  }

  lemma LogStep(query: string, count: nat, k: nat)
    ensures PageQueries(query, k + 1) == PageQueries(query, k) + [Paginated(query, BATCH_SIZE, BATCH_SIZE * k)]
    ensures ProgressLog(count, k + 1) == ProgressLog(count, k) + [if BATCH_SIZE * (k + 1) < count then BATCH_SIZE * (k + 1) else count]
  {
  }

  /** Appending the document of one more page query extends the file by that document. */
  lemma PagesSnoc(endpoint: TtlEndpoint, before: seq<string>, sent: seq<string>, query: string)
    ensures Pages(endpoint, []) == []
    ensures before + Pages(endpoint, sent) + [endpoint.construct(query)] == before + Pages(endpoint, sent + [query])
  {
    assert Pages(endpoint, sent + [query]) == Pages(endpoint, sent) + [endpoint.construct(query)];
  }

  /** `appendBatch`: sends one page query and appends the returned document to `file`. */
  method AppendBatch(fs: FileSystem, file: Path, query: string, offset: nat, limit: nat, endpoint: TtlEndpoint)
    modifies fs
    ensures fs.files == old(fs.files)[file := old(fs.Contents(file)) + [endpoint.construct(Paginated(query, limit, offset))]]
  {
    fs.Open(file);
    fs.Append(file, endpoint.construct(Paginated(query, limit, offset)));
  }

  /**
    The paging loop of one type: appends the pages of `query` at offsets
    0, 1000, 2000, … while the offset is below `count`, so Batches(count)
    pages and none for a count of 0, in which case the temporary file is not
    even opened. `progress` holds the figures logged after each page, which
    never exceed the count.
  */
  method AppendPages(fs: FileSystem, tmpFile: Path, query: string, count: nat, endpoint: TtlEndpoint)
    returns (ghost sent: seq<string>, ghost progress: seq<nat>)
    modifies fs
    ensures sent == PageQueries(query, Batches(count))
    ensures progress == ProgressLog(count, Batches(count))
    ensures fs.files == (if count == 0 then old(fs.files)
                         else old(fs.files)[tmpFile := old(fs.Contents(tmpFile)) + Pages(endpoint, sent)])
  {
    var offset := 0;
    sent, progress := [], [];
    ghost var before := fs.Contents(tmpFile);
    PagesSnoc(endpoint, before, [], query);
    assert PageQueries(query, 0) == [] && ProgressLog(count, 0) == [];
    while offset < count
      invariant offset == BATCH_SIZE * |sent|
      invariant |sent| == 0 || BATCH_SIZE * (|sent| - 1) < count
      invariant sent == PageQueries(query, |sent|)
      invariant progress == ProgressLog(count, |sent|)
      invariant fs.Contents(tmpFile) == before + Pages(endpoint, sent)
      invariant |sent| == 0 ==> fs.files == old(fs.files)
      invariant |sent| > 0 ==> fs.files == old(fs.files)[tmpFile := fs.Contents(tmpFile)]
      decreases count - offset
    {
      PagesSnoc(endpoint, before, sent, Paginated(query, BATCH_SIZE, offset));
      LogStep(query, count, |sent|);
      AppendBatch(fs, tmpFile, query, offset, BATCH_SIZE, endpoint);
      sent := sent + [Paginated(query, BATCH_SIZE, offset)];
      offset := offset + BATCH_SIZE;
      progress := progress + [if offset < count then offset else count];
    }
    BatchesOfStop(count, |sent|);
  }

  /**
    The export of one type: counts its resources with the count query, then
    pages through the CONSTRUCT query, which shares its WHERE clause.
  */
  method ExportType(fs: FileSystem, tmpFile: Path, prefixes: string, tc: TypeConfig, graph: string, endpoint: TtlEndpoint)
    returns (ghost sent: seq<string>)
    modifies fs
    ensures var count := CountForType(endpoint, prefixes, tc, graph);
      && sent == PageQueries(TypeQuery(prefixes, tc, graph), Batches(count))
      && fs.files == (if count == 0 then old(fs.files)
                      else old(fs.files)[tmpFile := old(fs.Contents(tmpFile)) + Pages(endpoint, sent)])
  {
    var count := CountForType(endpoint, prefixes, tc, graph);
    var query := TypeQuery(prefixes, tc, graph);
    ghost var progress;
    sent, progress := AppendPages(fs, tmpFile, query, count, endpoint);
  }

  /** Whether one of the first `k` types has resources to export. */
  predicate SomeResources(endpoint: TtlEndpoint, prefixes: string, types: seq<TypeConfig>, graph: string, k: nat)
    requires k <= |types|
  {
    exists i :: 0 <= i < k && CountForType(endpoint, prefixes, types[i], graph) > 0
  }

  /** Whether some type of the configuration has resources to export. */
  predicate AnyResources(endpoint: TtlEndpoint, config: ExportConfig, graph: string)
  {
    SomeResources(endpoint, PrefixStatements(config.prefixes), config.types, graph, |config.types|)
  }

  /**
    How the files stand after some types were exported: only `tmp` may have
    changed, it exists only if it did before or pages were written, and it
    still starts with what it held at the start.
  */
  predicate TmpOnly(start: map<Path, seq<string>>, now: map<Path, seq<string>>, tmp: Path)
  {
    && now - {tmp} == start - {tmp}
    && (tmp !in now ==> now == start)
    && (tmp in now && tmp in start ==> |start[tmp]| <= |now[tmp]| && now[tmp][..|start[tmp]|] == start[tmp])
    && (tmp in start ==> tmp in now)
  }

  /** Exporting one more type, which appends pages exactly when its count is positive, keeps TmpOnly. */
  lemma TmpOnlyStep(start: map<Path, seq<string>>, now: map<Path, seq<string>>, next: map<Path, seq<string>>,
                    tmp: Path, pages: seq<string>, count: nat)
    requires TmpOnly(start, now, tmp)
    requires next == (if count == 0 then now else now[tmp := (if tmp in now then now[tmp] else []) + pages])
    ensures TmpOnly(start, next, tmp)
    ensures tmp in next <==> tmp in now || count > 0
  {
    if count > 0 {
      assert next - {tmp} == now - {tmp};
      if tmp in start {
        var s := start[tmp];
        assert now[tmp][..|s|] == s;
        assert next[tmp][..|s|] == now[tmp][..|s|];
      }
    }
  }

  /**
    `exportAsync`: exports every configured type into `<file>.tmp`, then
    renames it to `file`. The rename fails (the returned promise rejects,
    `ok` is false) exactly when no temporary file existed and no type had a
    resource to export. Only the temporary file and `file` change, and what
    the temporary file held before stays at the start of the result.
  */
  method ExportAsync(fs: FileSystem, file: Path, config: ExportConfig, graph: string, endpoint: TtlEndpoint)
    returns (ok: bool)
    modifies fs
    ensures ok == (Tmp(file) in old(fs.files) || AnyResources(endpoint, config, graph))
    ensures ok ==> Tmp(file) !in fs.files && file in fs.files
    ensures !ok ==> fs.files == old(fs.files)
    ensures forall p :: p != file && p != Tmp(file) ==> (p in fs.files <==> p in old(fs.files))
    ensures forall p :: p != file && p != Tmp(file) && p in fs.files ==> fs.files[p] == old(fs.files)[p]
    ensures ok && Tmp(file) in old(fs.files) ==>
      |old(fs.files)[Tmp(file)]| <= |fs.files[file]| && fs.files[file][..|old(fs.files)[Tmp(file)]|] == old(fs.files)[Tmp(file)]
  {
    var tmpFile := Tmp(file);
    var prefixes := PrefixStatements(config.prefixes);
    for k := 0 to |config.types|
      invariant TmpOnly(old(fs.files), fs.files, tmpFile)
      invariant (tmpFile in fs.files) == (tmpFile in old(fs.files) || SomeResources(endpoint, prefixes, config.types, graph, k))
    {
      ghost var files := fs.files;
      ghost var sent := ExportType(fs, tmpFile, prefixes, config.types[k], graph, endpoint);
      TmpOnlyStep(old(fs.files), files, fs.files, tmpFile, Pages(endpoint, sent), CountForType(endpoint, prefixes, config.types[k], graph));
    }
    ok := fs.Rename(tmpFile, file);
  }
}
