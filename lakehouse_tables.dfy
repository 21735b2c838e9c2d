/**
 * The bookkeeping of get_lakehouse_tables: the table rows listed by the API or
 * read from the lakehouse's folders, the per-table measurements of extended
 * mode (files, row groups, size, row count), the guardrail columns, and the
 * export table with its run id and default columns.
 *
 * The storage is given as values: the files of the mounted lakehouse with
 * their sizes and row-group counts, and the Delta tables by path.
 */
module LakehouseTables {
  import opened Wrappers
  import opened Errors
  import opened PyStrings
  import opened JsonValues
  import opened Folds
  import opened Resolvers

  // ---------------------------------------------------------------------------
  // Rows
  // ---------------------------------------------------------------------------

  /** One row of the base table. Name, format, type and location are as the API gave them. */
  datatype TableRow = TableRow(
    workspaceName: string,
    lakehouseName: string,
    schemaName: string,
    tableName: Value,
    format: Value,
    tableType: Value,
    location: Value)

  /** `count_rows` switches extended mode on. */
  function ExtendedMode(extended: bool, countRows: bool): bool {
    extended || countRows
  }

  /** A table listed by the API: no schema, the other fields copied from the record. */
  function ApiRow(workspace: Resolved, lakehouse: Resolved, item: Value): Result<TableRow, Error> {
    match item
    case Obj(fs) =>
      Ok(TableRow(workspace.name, lakehouse.name, "", Cell(fs, "name"), Cell(fs, "format"),
                  Cell(fs, "type"), Cell(fs, "location")))
    case _ => Err(AttributeError)
  }

  function ApiRowFn(workspace: Resolved, lakehouse: Resolved): Value -> Result<TableRow, Error> {
    item => ApiRow(workspace, lakehouse, item)
  }

  function ApiPageRows(workspace: Resolved, lakehouse: Resolved, page: Value): Result<seq<TableRow>, Error> {
    var data :- GetOr(page, "data", Arr([]));
    var items :- Iterate(data);
    MapAll(items, ApiRowFn(workspace, lakehouse))
  }

  function ApiPageFn(workspace: Resolved, lakehouse: Resolved): Value -> Result<seq<TableRow>, Error> {
    page => ApiPageRows(workspace, lakehouse, page)
  }

  /** The rows found, or the early return of an empty table. */
  datatype Listing = EmptyListing | Listed(rows: seq<TableRow>)

  /**
   * The API listing: an empty or missing `data` on the first page returns the
   * empty table at once; otherwise the rows of every page in order.
   */
  function ApiListing(workspace: Resolved, lakehouse: Resolved, pages: seq<Value>): Result<Listing, Error> {
    if pages == [] then Err(IndexError)
    else
      var first :- Get(pages[0], "data");
      if !Truthy(first) then Ok(EmptyListing)
      else
        var rows :- ConcatAll(pages, ApiPageFn(workspace, lakehouse));
        Ok(Listed(rows))
  }

  /** API rows carry an empty schema name and copy the table's own fields. */
  lemma ApiRowShape(workspace: Resolved, lakehouse: Resolved, fs: seq<Field>)
    ensures var r := ApiRow(workspace, lakehouse, Obj(fs));
      && r.Ok? && r.value.schemaName == ""
      && r.value.workspaceName == workspace.name && r.value.lakehouseName == lakehouse.name
      && r.value.tableName == Cell(fs, "name") && r.value.format == Cell(fs, "format")
      && r.value.tableType == Cell(fs, "type") && r.value.location == Cell(fs, "location")
  {
  }

  /** A folder of the lakehouse's Tables directory and the table folders inside it. */
  datatype SchemaDir = SchemaDir(name: string, tables: seq<string>)

  /** A table found on disk: a managed Delta table at the location `create_abfss_path` gives. */
  function FolderRow(workspace: Resolved, lakehouse: Resolved, schema: string, table: string,
                     abfss: (string, string, string, string) -> string): TableRow
  {
    TableRow(workspace.name, lakehouse.name, schema, Str(table), Str("delta"), Str("Managed"),
             Str(abfss(lakehouse.id, workspace.id, table, schema)))
  }

  function SchemaRows(workspace: Resolved, lakehouse: Resolved, schema: string, tables: seq<string>,
                      abfss: (string, string, string, string) -> string): seq<TableRow>
    decreases |tables|
  {
    if tables == [] then []
    else SchemaRows(workspace, lakehouse, schema, tables[..|tables| - 1], abfss) +
         [FolderRow(workspace, lakehouse, schema, tables[|tables| - 1], abfss)]
  }

  /** The rows of the folder listing: every schema folder in order, every table in it in order. */
  function FolderRows(workspace: Resolved, lakehouse: Resolved, dirs: seq<SchemaDir>,
                      abfss: (string, string, string, string) -> string): seq<TableRow>
    decreases |dirs|
  {
    if dirs == [] then []
    else FolderRows(workspace, lakehouse, dirs[..|dirs| - 1], abfss) +
         SchemaRows(workspace, lakehouse, dirs[|dirs| - 1].name, dirs[|dirs| - 1].tables, abfss)
  }

  /** The folder listing, built as the two nested loops do. */
  method ListFolderRows(workspace: Resolved, lakehouse: Resolved, dirs: seq<SchemaDir>,
                        abfss: (string, string, string, string) -> string) returns (rows: seq<TableRow>)
    ensures rows == FolderRows(workspace, lakehouse, dirs, abfss)
  {
    rows := [];
    var s := 0;
    while s < |dirs|
      invariant 0 <= s <= |dirs|
      invariant rows == FolderRows(workspace, lakehouse, dirs[..s], abfss)
    {
      assert dirs[..s + 1][..s] == dirs[..s];
      var schema := dirs[s].name;
      var tables := dirs[s].tables;
      var t := 0;
      ghost var before := rows;
      while t < |tables|
        invariant 0 <= t <= |tables|
        invariant rows == before + SchemaRows(workspace, lakehouse, schema, tables[..t], abfss)
      {
        assert tables[..t + 1][..t] == tables[..t];
        rows := rows + [FolderRow(workspace, lakehouse, schema, tables[t], abfss)];
        t := t + 1;
      }
      assert tables[..t] == tables;
      s := s + 1;
    }
    assert dirs[..s] == dirs;
  }

  /** One schema's rows: one per table folder, in order, each a managed Delta table of that schema. */
  lemma {:induction false} SchemaRowsSpec(workspace: Resolved, lakehouse: Resolved, schema: string, tables: seq<string>,
                                          abfss: (string, string, string, string) -> string)
    ensures var rows := SchemaRows(workspace, lakehouse, schema, tables, abfss);
      && |rows| == |tables|
      && forall j :: 0 <= j < |tables| ==> rows[j] == FolderRow(workspace, lakehouse, schema, tables[j], abfss)
    decreases |tables|
  {
    if tables != [] {
      SchemaRowsSpec(workspace, lakehouse, schema, tables[..|tables| - 1], abfss);
    }
  }

  /**
   * Every row read from the folders is a managed Delta table, and a row is
   * listed exactly when its schema folder holds its table folder.
   */
  lemma {:induction false} FolderRowsSpec(workspace: Resolved, lakehouse: Resolved, dirs: seq<SchemaDir>,
                                          abfss: (string, string, string, string) -> string)
    ensures var rows := FolderRows(workspace, lakehouse, dirs, abfss);
      && (forall k :: 0 <= k < |rows| ==> rows[k].format == Str("delta") && rows[k].tableType == Str("Managed"))
      && (forall k :: 0 <= k < |rows| ==>
            exists s, t :: 0 <= s < |dirs| && 0 <= t < |dirs[s].tables| &&
                           rows[k] == FolderRow(workspace, lakehouse, dirs[s].name, dirs[s].tables[t], abfss))
      && (forall s, t :: 0 <= s < |dirs| && 0 <= t < |dirs[s].tables| ==>
            FolderRow(workspace, lakehouse, dirs[s].name, dirs[s].tables[t], abfss) in rows)
    decreases |dirs|
  {
    if dirs != [] {
      var init := dirs[..|dirs| - 1];
      var last := dirs[|dirs| - 1];
      FolderRowsSpec(workspace, lakehouse, init, abfss);
      SchemaRowsSpec(workspace, lakehouse, last.name, last.tables, abfss);
      var a := FolderRows(workspace, lakehouse, init, abfss);
      var b := SchemaRows(workspace, lakehouse, last.name, last.tables, abfss);
      var rows := a + b;
      forall k | 0 <= k < |rows|
        ensures exists s, t :: 0 <= s < |dirs| && 0 <= t < |dirs[s].tables| &&
                               rows[k] == FolderRow(workspace, lakehouse, dirs[s].name, dirs[s].tables[t], abfss)
      {
        if k < |a| {
          var s, t :| 0 <= s < |init| && 0 <= t < |init[s].tables| &&
                      a[k] == FolderRow(workspace, lakehouse, init[s].name, init[s].tables[t], abfss);
          assert init[s] == dirs[s];
        } else {
          assert rows[k] == b[k - |a|];
          assert dirs[|dirs| - 1] == last;
        }
      }
      forall s, t | 0 <= s < |dirs| && 0 <= t < |dirs[s].tables|
        ensures FolderRow(workspace, lakehouse, dirs[s].name, dirs[s].tables[t], abfss) in rows
      {
        if s < |init| {
          assert init[s] == dirs[s];
          assert FolderRow(workspace, lakehouse, init[s].name, init[s].tables[t], abfss) in a;
        } else {
          assert b[t] == FolderRow(workspace, lakehouse, dirs[s].name, dirs[s].tables[t], abfss);
        }
      }
    }
  }

  // ---------------------------------------------------------------------------
  // Paths
  // ---------------------------------------------------------------------------

  /** `.replace("//", "/").replace("abfss:/", "abfss://")` */
  function FixAbfss(p: string): string {
    ReplaceAll(ReplaceAll(p, "//", "/"), "abfss:/", "abfss://")
  }

  predicate NoDoubleSlash(s: string) {
    forall i :: 0 <= i < |s| ==> !MatchAt(s, i, "//")
  }

  predicate NoScheme(s: string) {
    forall i :: 0 <= i < |s| ==> !MatchAt(s, i, "abfss:/")
  }

  /** Scanning `abfss://rest` for `//` keeps `abfss:` and collapses the scheme's two slashes. */
  lemma CollapseScheme(rest: string)
    ensures ReplaceAll("abfss://" + rest, "//", "/") == "abfss:/" + ReplaceAll(rest, "//", "/")
  {
    var s := "abfss:" + ("//" + rest);
    assert "abfss://" + rest == s;
    forall i | 0 <= i < 6 ensures !MatchAt(s, i, "//") {
      assert s[i] == "abfss:"[i];
      assert s[i + 1] == ("abfss:" + "/")[i + 1];
    }
    ReplaceAllKeepsPrefix("abfss:", "//" + rest, "//", "/");
    ReplaceAllAtFront(rest, "//", "/");
    assert "abfss:" + ("/" + ReplaceAll(rest, "//", "/")) == "abfss:/" + ReplaceAll(rest, "//", "/");
  }

  /** Restoring the scheme in `abfss:/rest` when `rest` holds no other scheme. */
  lemma RestoreScheme(rest: string)
    requires NoScheme(rest)
    ensures ReplaceAll("abfss:/" + rest, "abfss:/", "abfss://") == "abfss://" + rest
  {
    ReplaceAllAtFront(rest, "abfss:/", "abfss://");
    ReplaceAllNoMatch(rest, "abfss:/", "abfss://");
  }

  /** A well-formed location passes through the fix-up unchanged. */
  lemma FixAbfssClean(rest: string)
    requires NoDoubleSlash(rest) && NoScheme(rest)
    ensures FixAbfss("abfss://" + rest) == "abfss://" + rest
  {
    CollapseScheme(rest);
    ReplaceAllNoMatch(rest, "//", "/");
    RestoreScheme(rest);
  }

  /** No `//` starts inside a front part without one that does not end in `/`. */
  lemma NoDoubleSlashBefore(front: string, back: string)
    requires NoDoubleSlash(front)
    requires |front| > 0 && front[|front| - 1] != '/'
    ensures forall i :: 0 <= i < |front| ==> !MatchAt(front + back, i, "//")
  {
    var rest := front + back;
    forall i | 0 <= i < |front| ensures !MatchAt(rest, i, "//") {
      if i + 1 < |front| {
        assert rest[i..i + 2] == front[i..i + 2];
        assert !MatchAt(front, i, "//");
      } else {
        assert rest[i] == front[i] != '/';
        NotMatchAtFirstTwo(rest, i, "//");
      }
    }
  }

  /**
   * The double slash an empty schema name leaves between `Tables` and the
   * table collapses into one, and the scheme keeps its two slashes.
   */
  lemma FixAbfssEmptySchema(front: string, table: string)
    requires NoDoubleSlash(front) && NoDoubleSlash(table) && NoScheme(front + "/" + table)
    requires |front| > 0 && front[|front| - 1] != '/'
    requires |table| > 0 && table[0] != '/'
    ensures FixAbfss("abfss://" + front + "//" + table) == "abfss://" + front + "/" + table
  {
    var rest := front + ("//" + table);
    assert "abfss://" + front + "//" + table == "abfss://" + rest;
    CollapseScheme(rest);
    CollapseEmptySchema(front, table);
    RestoreScheme(front + "/" + table);
  }

  /** Past the scheme, the one double slash of an empty schema collapses and nothing else changes. */
  lemma CollapseEmptySchema(front: string, table: string)
    requires NoDoubleSlash(front) && NoDoubleSlash(table)
    requires |front| > 0 && front[|front| - 1] != '/'
    requires |table| > 0 && table[0] != '/'
    ensures ReplaceAll(front + ("//" + table), "//", "/") == front + "/" + table
  {
    NoDoubleSlashBefore(front, "//" + table);
    ReplaceAllKeepsPrefix(front, "//" + table, "//", "/");
    ReplaceAllAtFront(table, "//", "/");
    ReplaceAllNoMatch(table, "//", "/");
  }

  /**
   * `file[-k:]` with `k = len(file) - (file.find(table) + len(table) + 1)`: the
   * text after the first occurrence of the table name and one separator.
   */
  function FileSuffix(file: string, table: string): string {
    var k := |file| - (Find(file, table) + |table| + 1);
    SliceFrom(file, -k)
  }

  /** When the table name first occurs right before a separator and more text, that text is the suffix. */
  lemma FileSuffixAfterTable(pre: string, table: string, sep: char, rest: string)
    requires Find(pre + table + [sep] + rest, table) == |pre|
    requires |rest| > 0
    ensures FileSuffix(pre + table + [sep] + rest, table) == rest
  {
    var file := pre + table + [sep] + rest;
    assert file[|file| - |rest|..] == rest;
  }

  /** Nothing after the table name and its separator gives `file[-0:]`, the whole path. */
  lemma FileSuffixWhole(pre: string, table: string, sep: char)
    requires Find(pre + table + [sep], table) == |pre|
    ensures FileSuffix(pre + table + [sep], table) == pre + table + [sep]
  {
  }

  // ---------------------------------------------------------------------------
  // Measurements of extended mode
  // ---------------------------------------------------------------------------

  /** A file of the mounted lakehouse. */
  datatype LocalFile = LocalFile(size: nat, rowGroups: nat)

  /**
   * A Delta table: the paths of its add actions (relative, read without Spark),
   * its input files (full URIs, read with Spark), the detail fields `sizeInBytes`
   * and `numFiles` when present, and its number of rows.
   */
  datatype DeltaSnapshot = DeltaSnapshot(addPaths: seq<string>, inputFiles: seq<string>,
                                         sizeInBytes: Option<nat>, numFiles: Option<nat>, numRows: nat)

  /** The lakehouse as extended mode sees it. */
  datatype Storage = Storage(
    localPath: string,                        // where the lakehouse is mounted
    files: map<string, LocalFile>,            // the files that exist under the mount
    tables: map<string, DeltaSnapshot>,       // the Delta tables that open, by path
    purePython: bool)                         // whether the notebook runs without Spark

  /** `os.path.join(local_path, "Tables", schema_name, table_name)` */
  function TablePath(st: Storage, schema: string, table: string): string {
    PathJoin(PathJoin(PathJoin(st.localPath, "Tables"), schema), table)
  }

  /** The total size of the listed files that exist, each under the table's folder. */
  function SizeSum(tablePath: string, names: seq<string>, files: map<string, LocalFile>): nat
    decreases |names|
  {
    if names == [] then 0
    else
      var p := PathJoin(tablePath, names[|names| - 1]);
      SizeSum(tablePath, names[..|names| - 1], files) + (if p in files then files[p].size else 0)
  }

  /** The total row groups of the listed parquet files that exist at `table_path/name`. */
  function RowGroupSum(tablePath: string, names: seq<string>, files: map<string, LocalFile>): nat
    decreases |names|
  {
    if names == [] then 0
    else
      var p := tablePath + "/" + names[|names| - 1];
      RowGroupSum(tablePath, names[..|names| - 1], files) + (if p in files then files[p].rowGroups else 0)
  }

  /** Sums over consecutive lists add up. */
  lemma {:induction false} RowGroupSumAppend(tablePath: string, a: seq<string>, b: seq<string>, files: map<string, LocalFile>)
    ensures RowGroupSum(tablePath, a + b, files) == RowGroupSum(tablePath, a, files) + RowGroupSum(tablePath, b, files)
    decreases |b|
  {
    if b == [] {
      assert a + b == a;
    } else {
      assert (a + b)[..|a + b| - 1] == a + b[..|b| - 1];
      RowGroupSumAppend(tablePath, a, b[..|b| - 1], files);
    }
  }

  /** Files that are missing under the mount add nothing. */
  lemma {:induction false} RowGroupSumMissing(tablePath: string, names: seq<string>, files: map<string, LocalFile>)
    requires forall i :: 0 <= i < |names| ==> tablePath + "/" + names[i] !in files
    ensures RowGroupSum(tablePath, names, files) == 0
    decreases |names|
  {
    if names != [] {
      RowGroupSumMissing(tablePath, names[..|names| - 1], files);
    }
  }

  /** Each existing file adds at most the largest row-group count among the files. */
  lemma {:induction false} RowGroupSumBound(tablePath: string, names: seq<string>, files: map<string, LocalFile>, most: nat)
    requires forall p :: p in files ==> files[p].rowGroups <= most
    ensures RowGroupSum(tablePath, names, files) <= |names| * most
    decreases |names|
  {
    if names != [] {
      RowGroupSumBound(tablePath, names[..|names| - 1], files, most);
    }
  }

  /** `size_in_bytes += os.path.getsize(...)` over the files that exist. */
  method SumSizes(tablePath: string, names: seq<string>, files: map<string, LocalFile>) returns (total: nat)
    ensures total == SizeSum(tablePath, names, files)
  {
    total := 0;
    var k := 0;
    while k < |names|
      invariant 0 <= k <= |names|
      invariant total == SizeSum(tablePath, names[..k], files)
    {
      assert names[..k + 1][..k] == names[..k];
      var p := PathJoin(tablePath, names[k]);
      if p in files {
        total := total + files[p].size;
      }
      k := k + 1;
    }
    assert names[..k] == names;
  }

  /** `num_rowgroups += parquet_file.num_row_groups` over the files that exist. */
  method SumRowGroups(tablePath: string, names: seq<string>, files: map<string, LocalFile>) returns (total: nat)
    ensures total == RowGroupSum(tablePath, names, files)
  {
    total := 0;
    var k := 0;
    while k < |names|
      invariant 0 <= k <= |names|
      invariant total == RowGroupSum(tablePath, names[..k], files)
    {
      assert names[..k + 1][..k] == names[..k];
      var p := tablePath + "/" + names[k];
      if p in files {
        total := total + files[p].rowGroups;
      }
      k := k + 1;
    }
    assert names[..k] == names;
  }

  /** The names the row groups are looked up by: as listed without Spark, the suffixes with it. */
  function FileNames(latest: seq<string>, table: string, purePython: bool): seq<string> {
    if purePython then latest else seq(|latest|, i requires 0 <= i < |latest| => FileSuffix(latest[i], table))
  }

  /**
   * The name a file is looked up by: without Spark the listed path itself;
   * with Spark, for a URI in which the table name first occurs right before
   * the file's own part, the text after the table folder.
   */
  lemma FileNamesAfterTable(latest: seq<string>, table: string, i: nat, pre: string, sep: char, rest: string)
    requires i < |latest| && latest[i] == pre + table + [sep] + rest
    requires Find(latest[i], table) == |pre| && |rest| > 0
    ensures FileNames(latest, table, true)[i] == latest[i]
    ensures FileNames(latest, table, false)[i] == rest
  {
    FileSuffixAfterTable(pre, table, sep, rest);
  }

  /** `file_paths.append(...)` for each latest file. */
  method CollectFileNames(latest: seq<string>, table: string, purePython: bool) returns (names: seq<string>)
    ensures names == FileNames(latest, table, purePython)
  {
    names := [];
    var k := 0;
    while k < |latest|
      invariant 0 <= k <= |latest|
      invariant |names| == k
      invariant forall i :: 0 <= i < k ==> names[i] == (if purePython then latest[i] else FileSuffix(latest[i], table))
    {
      if purePython {
        names := names + [latest[k]];
      } else {
        names := names + [FileSuffix(latest[k], table)];
      }
      k := k + 1;
    }
  }

  /** The measured columns of one row; absent where the row was not measured. */
  datatype Details = Details(files: Option<nat>, rowGroups: Option<nat>, tableSize: Option<nat>, rowCount: Option<nat>)

  predicate IsManagedDelta(r: TableRow) {
    r.tableType == Str("Managed") && r.format == Str("delta")
  }

  predicate AllManaged(rows: seq<TableRow>) {
    forall i :: 0 <= i < |rows| ==> IsManagedDelta(rows[i])
  }

  /** Files, row groups and size of a managed Delta table. */
  function Measure(st: Storage, snap: DeltaSnapshot, schema: string, table: string): (nat, nat, nat) {
    var tablePath := TablePath(st, schema, table);
    var latest := if st.purePython then snap.addPaths else snap.inputFiles;
    var size := if st.purePython then SizeSum(tablePath, latest, st.files) else snap.sizeInBytes.GetOr(0);
    var count := if st.purePython then |latest| else snap.numFiles.GetOr(0);
    (count, RowGroupSum(tablePath, FileNames(latest, table, st.purePython), st.files), size)
  }

  /**
   * One row of the loop. A managed Delta table is opened at its fixed-up
   * location and measured. Any other row keeps no measurements; its row count,
   * when counted, is that of the last table opened, and there is none before
   * the first managed table.
   */
  function RowDetails(r: TableRow, last: Option<DeltaSnapshot>, st: Storage, countRows: bool,
                      lakehouseId: string, workspaceId: string,
                      abfss: (string, string, string, string) -> string): Result<(Details, Option<DeltaSnapshot>), Error>
  {
    if IsManagedDelta(r) then
      if !r.tableName.Str? then Err(TypeError)
      else
        var table := r.tableName.s;
        var path := FixAbfss(abfss(lakehouseId, workspaceId, table, r.schemaName));
        if path !in st.tables then Err(TableNotFound(path))
        else
          var snap := st.tables[path];
          var m := Measure(st, snap, r.schemaName, table);
          Ok((Details(Some(m.0), Some(m.1), Some(m.2), if countRows then Some(snap.numRows) else None), Some(snap)))
    else if !countRows then Ok((Details(None, None, None, None), last))
    else if last.None? then Err(UnboundLocal)
    else Ok((Details(None, None, None, Some(last.value.numRows)), last))
  }

  /** The measurements so far and the Delta table opened last. */
  datatype Scan = Scan(details: seq<Details>, last: Option<DeltaSnapshot>)

  function ScanRows(rows: seq<TableRow>, st: Storage, countRows: bool, lakehouseId: string, workspaceId: string,
                    abfss: (string, string, string, string) -> string): Result<Scan, Error>
    decreases |rows|
  {
    if rows == [] then Ok(Scan([], None))
    else
      var prev :- ScanRows(rows[..|rows| - 1], st, countRows, lakehouseId, workspaceId, abfss);
      var step :- RowDetails(rows[|rows| - 1], prev.last, st, countRows, lakehouseId, workspaceId, abfss);
      Ok(Scan(prev.details + [step.0], step.1))
  }

  lemma {:induction false} ScanRowsPrefixErr(rows: seq<TableRow>, k: nat, st: Storage, countRows: bool,
                                             lakehouseId: string, workspaceId: string,
                                             abfss: (string, string, string, string) -> string)
    requires k <= |rows|
    requires ScanRows(rows[..k], st, countRows, lakehouseId, workspaceId, abfss).Err?
    ensures ScanRows(rows, st, countRows, lakehouseId, workspaceId, abfss) ==
            ScanRows(rows[..k], st, countRows, lakehouseId, workspaceId, abfss)
    decreases |rows| - k
  {
    if k < |rows| {
      assert rows[..k + 1][..k] == rows[..k];
      ScanRowsPrefixErr(rows, k + 1, st, countRows, lakehouseId, workspaceId, abfss);
    } else {
      assert rows[..k] == rows;
    }
  }

  /** The measurements of a single row, from the loops over its files. */
  method MeasureRow(r: TableRow, last: Option<DeltaSnapshot>, st: Storage, countRows: bool,
                    lakehouseId: string, workspaceId: string, abfss: (string, string, string, string) -> string)
    returns (res: Result<(Details, Option<DeltaSnapshot>), Error>)
    ensures res == RowDetails(r, last, st, countRows, lakehouseId, workspaceId, abfss)
  {
    if !IsManagedDelta(r) {
      if !countRows {
        return Ok((Details(None, None, None, None), last));
      } else if last.None? {
        return Err(UnboundLocal);
      }
      return Ok((Details(None, None, None, Some(last.value.numRows)), last));
    }
    if !r.tableName.Str? {
      return Err(TypeError);
    }
    var table := r.tableName.s;
    var path := FixAbfss(abfss(lakehouseId, workspaceId, table, r.schemaName));
    if path !in st.tables {
      return Err(TableNotFound(path));
    }
    var snap := st.tables[path];
    var tablePath := TablePath(st, r.schemaName, table);
    var latest: seq<string>;
    var size: nat;
    var count: nat;
    if st.purePython {
      latest := snap.addPaths;
      size := SumSizes(tablePath, latest, st.files);
      count := |latest|;
    } else {
      latest := snap.inputFiles;
      size := snap.sizeInBytes.GetOr(0);
      count := snap.numFiles.GetOr(0);
    }
    var names := CollectFileNames(latest, table, st.purePython);
    var rowGroups := SumRowGroups(tablePath, names, st.files);
    var rowCount := if countRows then Some(snap.numRows) else None;
    return Ok((Details(Some(count), Some(rowGroups), Some(size), rowCount), Some(snap)));
  }

  /** The `iterrows` loop: the measured columns are written row by row into a column array. */
  method ScanTables(rows: seq<TableRow>, st: Storage, countRows: bool, lakehouseId: string, workspaceId: string,
                    abfss: (string, string, string, string) -> string) returns (res: Result<seq<Details>, Error>)
    ensures res.Ok? <==> ScanRows(rows, st, countRows, lakehouseId, workspaceId, abfss).Ok?
    ensures res.Ok? ==> res.value == ScanRows(rows, st, countRows, lakehouseId, workspaceId, abfss).value.details
    ensures res.Err? ==> res.error == ScanRows(rows, st, countRows, lakehouseId, workspaceId, abfss).error
  {
    // the Files, Row Groups, Table Size and Row Count columns start out as None
    var details := new Details[|rows|](_ => Details(None, None, None, None));
    var last: Option<DeltaSnapshot> := None;
    var i := 0;
    while i < |rows|
      invariant 0 <= i <= |rows|
      invariant ScanRows(rows[..i], st, countRows, lakehouseId, workspaceId, abfss) == Ok(Scan(details[..i], last))
    {
      assert rows[..i + 1][..i] == rows[..i];
      assert rows[..i + 1][i] == rows[i];
      var step := MeasureRow(rows[i], last, st, countRows, lakehouseId, workspaceId, abfss);
      if step.Err? {
        ScanRowsPrefixErr(rows, i + 1, st, countRows, lakehouseId, workspaceId, abfss);
        return Err(step.error);
      }
      details[i] := step.value.0;
      last := step.value.1;
      assert details[..i + 1] == details[..i] + [step.value.0];
      i := i + 1;
    }
    assert rows[..i] == rows;
    return Ok(details[..]);
  }

  /**
   * Without counting rows, a managed Delta row is measured from its own table
   * and any other row stays unmeasured; nothing raises for the other rows.
   */
  lemma RowDetailsUncounted(r: TableRow, last: Option<DeltaSnapshot>, st: Storage,
                            lakehouseId: string, workspaceId: string, abfss: (string, string, string, string) -> string)
    ensures var d := RowDetails(r, last, st, false, lakehouseId, workspaceId, abfss);
      && (!IsManagedDelta(r) ==> d == Ok((Details(None, None, None, None), last)))
      && (d.Ok? && IsManagedDelta(r) ==>
            d.value.0.files.Some? && d.value.0.rowGroups.Some? && d.value.0.tableSize.Some? &&
            d.value.0.rowCount.None?)
  {
  }

  /** A counted row that is not a managed Delta table reports the row count of the table opened last. */
  lemma RowDetailsStaleCount(r: TableRow, snap: DeltaSnapshot, st: Storage,
                             lakehouseId: string, workspaceId: string, abfss: (string, string, string, string) -> string)
    requires !IsManagedDelta(r)
    ensures RowDetails(r, Some(snap), st, true, lakehouseId, workspaceId, abfss) ==
            Ok((Details(None, None, None, Some(snap.numRows)), Some(snap)))
    ensures RowDetails(r, None, st, true, lakehouseId, workspaceId, abfss) == Err(UnboundLocal)
  {
  }

  // ---------------------------------------------------------------------------
  // Tables
  // ---------------------------------------------------------------------------

  /** A table: its column names in order and one record per row. */
  datatype Frame = Frame(columns: seq<string>, rows: seq<map<string, Value>>)

  const BaseColumns: seq<string> :=
    ["Workspace Name", "Lakehouse Name", "Schema Name", "Table Name", "Format", "Type", "Location"]

  /** The guardrails of the capacity's SKU; the row guardrail is in millions of rows. */
  datatype Guardrail = Guardrail(sku: string, parquetFiles: int, rowGroups: int, rowsMillions: int)

  function RowCountGuardrail(g: Guardrail): int {
    g.rowsMillions * 1000000
  }

  function BaseRecord(r: TableRow): map<string, Value> {
    map["Workspace Name" := Str(r.workspaceName), "Lakehouse Name" := Str(r.lakehouseName),
        "Schema Name" := Str(r.schemaName), "Table Name" := r.tableName, "Format" := r.format,
        "Type" := r.tableType, "Location" := r.location]
  }

  function BaseFrame(rows: seq<TableRow>): Frame {
    Frame(BaseColumns, seq(|rows|, i requires 0 <= i < |rows| => BaseRecord(rows[i])))
  }

  /** Extended mode names an empty schema `dbo`. */
  function WithDbo(r: TableRow): TableRow {
    if r.schemaName == "" then r.(schemaName := "dbo") else r
  }

  function ExtendedColumns(countRows: bool): seq<string> {
    BaseColumns + ["Files", "Row Groups", "Table Size"] + (if countRows then ["Row Count"] else []) +
    ["SKU", "Parquet File Guardrail", "Row Group Guardrail", "Row Count Guardrail",
     "Parquet File Guardrail Hit", "Row Group Guardrail Hit"] +
    (if countRows then ["Row Count Guardrail Hit"] else [])
  }

  predicate Measured(d: Details, countRows: bool) {
    d.files.Some? && d.rowGroups.Some? && d.tableSize.Some? && (countRows ==> d.rowCount.Some?)
  }

  /** Every measured column of every row holds a number, as `astype(int)` demands. */
  predicate AllMeasured(details: seq<Details>, countRows: bool) {
    forall i :: 0 <= i < |details| ==> Measured(details[i], countRows)
  }

  /** The measured and guardrail columns every extended row has. */
  function MeasuredRecord(d: Details, g: Guardrail): map<string, Value>
    requires Measured(d, false)
  {
    map["Files" := Int(d.files.value), "Row Groups" := Int(d.rowGroups.value),
        "Table Size" := Int(d.tableSize.value),
        "SKU" := Str(g.sku), "Parquet File Guardrail" := Int(g.parquetFiles),
        "Row Group Guardrail" := Int(g.rowGroups), "Row Count Guardrail" := Int(RowCountGuardrail(g)),
        "Parquet File Guardrail Hit" := Bool(d.files.value > g.parquetFiles),
        "Row Group Guardrail Hit" := Bool(d.rowGroups.value > g.rowGroups)]
  }

  /** The row count columns, present only with `count_rows`. */
  function CountedRecord(d: Details, g: Guardrail, countRows: bool): map<string, Value>
    requires Measured(d, countRows)
  {
    if countRows then
      map["Row Count" := Int(d.rowCount.value),
          "Row Count Guardrail Hit" := Bool(d.rowCount.value > RowCountGuardrail(g))]
    else map[]
  }

  function ExtendedRecord(r: TableRow, d: Details, g: Guardrail, countRows: bool): map<string, Value>
    requires Measured(d, countRows)
  {
    BaseRecord(WithDbo(r)) + MeasuredRecord(d, g) + CountedRecord(d, g, countRows)
  }

  /** The extended table; an unmeasured row makes the integer conversion raise. */
  function ExtendedFrame(rows: seq<TableRow>, details: seq<Details>, g: Guardrail, countRows: bool): Result<Frame, Error>
    requires |details| == |rows|
  {
    if !AllMeasured(details, countRows) then Err(TypeError)
    else Ok(Frame(ExtendedColumns(countRows),
                  seq(|rows|, i requires 0 <= i < |rows| => ExtendedRecord(rows[i], details[i], g, countRows))))
  }

  /** A record whose guardrail columns agree with its measured columns. */
  predicate FlagsConsistent(rec: map<string, Value>, g: Guardrail, countRows: bool) {
    && "Files" in rec && "Row Groups" in rec && "Parquet File Guardrail" in rec && "Row Group Guardrail" in rec
    && "Row Count Guardrail" in rec && "Parquet File Guardrail Hit" in rec && "Row Group Guardrail Hit" in rec
    && rec["Files"].Int? && rec["Row Groups"].Int? && rec["Parquet File Guardrail"].Int? && rec["Row Group Guardrail"].Int?
    && rec["Row Count Guardrail"] == Int(g.rowsMillions * 1000000)
    && rec["Parquet File Guardrail Hit"] == Bool(rec["Files"].i > rec["Parquet File Guardrail"].i)
    && rec["Row Group Guardrail Hit"] == Bool(rec["Row Groups"].i > rec["Row Group Guardrail"].i)
    && (countRows ==>
          && "Row Count" in rec && "Row Count Guardrail Hit" in rec && rec["Row Count"].Int?
          && rec["Row Count Guardrail Hit"] == Bool(rec["Row Count"].i > rec["Row Count Guardrail"].i))
  }

  /** The schema an extended row shows: `dbo` for an empty schema, any other schema as it is. */
  function ShownSchema(schema: string): Value {
    Str(if schema == "" then "dbo" else schema)
  }

  /**
   * An extended record holds guardrail columns consistent with its
   * measurements, the schema with an empty one shown as `dbo`, and the
   * table's name, format, type and location as listed.
   */
  lemma ExtendedRecordFlags(r: TableRow, d: Details, g: Guardrail, countRows: bool)
    requires Measured(d, countRows)
    ensures var rec := ExtendedRecord(r, d, g, countRows);
      && FlagsConsistent(rec, g, countRows)
      && "Schema Name" in rec && rec["Schema Name"] == ShownSchema(r.schemaName)
      && "Table Name" in rec && rec["Table Name"] == r.tableName
      && "Format" in rec && rec["Format"] == r.format
      && "Type" in rec && rec["Type"] == r.tableType
      && "Location" in rec && rec["Location"] == r.location
  {
    ExtendedRecordGuardrails(r, d, g, countRows);
    ExtendedRecordKeepsBase(r, d, g, countRows);
    var base := BaseRecord(WithDbo(r));
    assert "Schema Name" in BaseColumns && base["Schema Name"] == ShownSchema(r.schemaName);
    assert "Table Name" in BaseColumns && "Format" in BaseColumns && "Type" in BaseColumns && "Location" in BaseColumns;
  }

  lemma ExtendedRecordGuardrails(r: TableRow, d: Details, g: Guardrail, countRows: bool)
    requires Measured(d, countRows)
    ensures FlagsConsistent(ExtendedRecord(r, d, g, countRows), g, countRows)
  {
  }

  /** The measured and counted columns leave the base columns of the dbo-named row in place. */
  lemma ExtendedRecordKeepsBase(r: TableRow, d: Details, g: Guardrail, countRows: bool)
    requires Measured(d, countRows)
    ensures var rec := ExtendedRecord(r, d, g, countRows);
      forall k :: k in BaseColumns ==> k in rec && rec[k] == BaseRecord(WithDbo(r))[k]
  {
    var base := BaseRecord(WithDbo(r));
    var extra := MeasuredRecord(d, g) + CountedRecord(d, g, countRows);
    BaseColumnsNotMeasured(d, g, countRows);
    assert ExtendedRecord(r, d, g, countRows) == base + extra;
    forall k | k in BaseColumns ensures k in base + extra && (base + extra)[k] == base[k] {
      assert k in base && k !in extra;
    }
  }

  lemma BaseColumnsNotMeasured(d: Details, g: Guardrail, countRows: bool)
    requires Measured(d, countRows)
    ensures forall k :: k in BaseColumns ==> k !in MeasuredRecord(d, g) + CountedRecord(d, g, countRows)
  {
    var extra := MeasuredRecord(d, g) + CountedRecord(d, g, countRows);
    assert extra.Keys <= {"Files", "Row Groups", "Table Size", "SKU", "Parquet File Guardrail", "Row Group Guardrail",
                          "Row Count Guardrail", "Parquet File Guardrail Hit", "Row Group Guardrail Hit",
                          "Row Count", "Row Count Guardrail Hit"};
  }


  /**
   * Each guardrail flag of the extended table is a strict comparison of the
   * measured value with its guardrail; the row guardrail is the millions
   * value times 1000000; an empty schema reads `dbo` and any other schema
   * is kept.
   */
  lemma GuardrailFlags(rows: seq<TableRow>, details: seq<Details>, g: Guardrail, countRows: bool)
    requires |details| == |rows|
    ensures var f := ExtendedFrame(rows, details, g, countRows);
      f.Ok? ==>
        && |f.value.rows| == |rows|
        && forall i :: 0 <= i < |rows| ==>
             && FlagsConsistent(f.value.rows[i], g, countRows)
             && "Schema Name" in f.value.rows[i] && f.value.rows[i]["Schema Name"] == ShownSchema(rows[i].schemaName)
  {
    var f := ExtendedFrame(rows, details, g, countRows);
    if f.Ok? {
      forall i | 0 <= i < |rows|
        ensures FlagsConsistent(f.value.rows[i], g, countRows)
        ensures "Schema Name" in f.value.rows[i] && f.value.rows[i]["Schema Name"] == ShownSchema(rows[i].schemaName)
      {
        ExtendedRecordFlags(rows[i], details[i], g, countRows);
      }
    }
  }

  /** A row is measured in full exactly when it is a managed Delta table. */
  lemma RowDetailsMeasured(r: TableRow, last: Option<DeltaSnapshot>, st: Storage, countRows: bool,
                           lakehouseId: string, workspaceId: string, abfss: (string, string, string, string) -> string)
    requires RowDetails(r, last, st, countRows, lakehouseId, workspaceId, abfss).Ok?
    ensures Measured(RowDetails(r, last, st, countRows, lakehouseId, workspaceId, abfss).value.0, countRows) <==>
            IsManagedDelta(r)
  {
  }

  /** The extended table exists exactly when every row was measured, so every row was a managed Delta table. */
  lemma {:induction false} ExtendedNeedsManaged(rows: seq<TableRow>, st: Storage, countRows: bool,
                                                lakehouseId: string, workspaceId: string,
                                                abfss: (string, string, string, string) -> string)
    requires ScanRows(rows, st, countRows, lakehouseId, workspaceId, abfss).Ok?
    ensures var s := ScanRows(rows, st, countRows, lakehouseId, workspaceId, abfss).value;
      && |s.details| == |rows|
      && (AllMeasured(s.details, countRows) <==> AllManaged(rows))
    decreases |rows|
  {
    if rows != [] {
      var init := rows[..|rows| - 1];
      var r := rows[|rows| - 1];
      assert rows == init + [r];
      ScanRowsSnoc(init, r, st, countRows, lakehouseId, workspaceId, abfss);
      ExtendedNeedsManaged(init, st, countRows, lakehouseId, workspaceId, abfss);
      var prev := ScanRows(init, st, countRows, lakehouseId, workspaceId, abfss).value;
      var step := RowDetails(r, prev.last, st, countRows, lakehouseId, workspaceId, abfss).value;
      RowDetailsMeasured(r, prev.last, st, countRows, lakehouseId, workspaceId, abfss);
      AllMeasuredSnoc(prev.details, step.0, countRows);
      AllManagedSnoc(init, r);
    }
  }

  /** One more row extends the measurements by that row's own. */
  lemma ScanRowsSnoc(init: seq<TableRow>, r: TableRow, st: Storage, countRows: bool,
                     lakehouseId: string, workspaceId: string, abfss: (string, string, string, string) -> string)
    requires ScanRows(init + [r], st, countRows, lakehouseId, workspaceId, abfss).Ok?
    ensures ScanRows(init, st, countRows, lakehouseId, workspaceId, abfss).Ok?
    ensures var prev := ScanRows(init, st, countRows, lakehouseId, workspaceId, abfss).value;
      && RowDetails(r, prev.last, st, countRows, lakehouseId, workspaceId, abfss).Ok?
      && ScanRows(init + [r], st, countRows, lakehouseId, workspaceId, abfss).value.details ==
         prev.details + [RowDetails(r, prev.last, st, countRows, lakehouseId, workspaceId, abfss).value.0]
  {
    assert (init + [r])[..|init|] == init;
    assert (init + [r])[|init|] == r;
  }

  lemma AllMeasuredSnoc(ds: seq<Details>, d: Details, countRows: bool)
    ensures AllMeasured(ds + [d], countRows) <==> AllMeasured(ds, countRows) && Measured(d, countRows)
  {
    assert forall i :: 0 <= i < |ds| ==> (ds + [d])[i] == ds[i];
    assert (ds + [d])[|ds|] == d;
  }

  lemma AllManagedSnoc(init: seq<TableRow>, r: TableRow)
    ensures AllManaged(init + [r]) <==> AllManaged(init) && IsManagedDelta(r)
  {
    assert forall i :: 0 <= i < |init| ==> (init + [r])[i] == init[i];
    assert (init + [r])[|init|] == r;
  }

  // ---------------------------------------------------------------------------
  // Export
  // ---------------------------------------------------------------------------

  const ExportTableName := "lakehouse_table_details"

  /** The run id: 1 for the first export, else one more than the stored maximum. */
  function RunId(table: Frame, storedMax: int): int {
    if forall i :: 0 <= i < |table.rows| ==> !("Table Name" in table.rows[i] && table.rows[i]["Table Name"] == Str(ExportTableName))
    then 1
    else storedMax + 1
  }

  const ExportColumns: seq<string> :=
    ["Files", "Row Groups", "Row Count", "Table Size", "SKU", "Parquet File Guardrail", "Row Group Guardrail",
     "Row Count Guardrail", "Parquet File Guardrail Hit", "Row Group Guardrail Hit", "Row Count Guardrail Hit"]

  /** What a missing export column is filled with: 0 for numbers, the text None for the SKU, False for flags. */
  function ExportDefault(c: string): Value {
    if c == "SKU" then Str("None")
    else if c in {"Parquet File Guardrail Hit", "Row Group Guardrail Hit", "Row Count Guardrail Hit"} then Bool(false)
    else Int(0)
  }

  /** `df[c] = v`: a new last column holding `v` in every row. */
  function WithColumn(f: Frame, c: string, v: Value): Frame {
    Frame(f.columns + [c], seq(|f.rows|, i requires 0 <= i < |f.rows| => f.rows[i][c := v]))
  }

  /** The columns of `cols` that are missing, added in order with their defaults. */
  function FillDefaults(f: Frame, cols: seq<string>): Frame
    decreases |cols|
  {
    if cols == [] then f
    else
      var g := FillDefaults(f, cols[..|cols| - 1]);
      var c := cols[|cols| - 1];
      if c in g.columns then g else WithColumn(g, c, ExportDefault(c))
  }

  /** The default-filling loop over the export columns. */
  method FillExportDefaults(f: Frame) returns (g: Frame)
    ensures g == FillDefaults(f, ExportColumns)
  {
    g := f;
    var k := 0;
    while k < |ExportColumns|
      invariant 0 <= k <= |ExportColumns|
      invariant g == FillDefaults(f, ExportColumns[..k])
    {
      assert ExportColumns[..k + 1][..k] == ExportColumns[..k];
      var c := ExportColumns[k];
      if c !in g.columns {
        g := WithColumn(g, c, ExportDefault(c));
      }
      k := k + 1;
    }
    assert ExportColumns[..k] == ExportColumns;
  }

  /**
   * Filling keeps every row and the columns that were there, in order, and adds
   * only listed columns; afterwards every listed column exists.
   */
  lemma {:induction false} FillDefaultsColumns(f: Frame, cols: seq<string>)
    ensures var g := FillDefaults(f, cols);
      && |g.rows| == |f.rows|
      && |f.columns| <= |g.columns| && g.columns[..|f.columns|] == f.columns
      && (forall c :: c in f.columns ==> c in g.columns)
      && (forall c :: c in cols ==> c in g.columns)
      && (forall c :: c in g.columns ==> c in f.columns || c in cols)
    decreases |cols|
  {
    if cols != [] {
      var init := cols[..|cols| - 1];
      FillDefaultsColumns(f, init);
      var g := FillDefaults(f, init);
      var c := cols[|cols| - 1];
      assert forall d :: d in cols <==> d in init || d == c;
      if c !in g.columns {
        var h := WithColumn(g, c, ExportDefault(c));
        assert h.columns[..|g.columns|] == g.columns;
        assert h.columns[..|f.columns|] == g.columns[..|f.columns|];
      }
    }
  }

  /** Filling keeps the value of every column that was there, row by row. */
  lemma {:induction false} FillDefaultsKeeps(f: Frame, cols: seq<string>)
    ensures var g := FillDefaults(f, cols);
      |g.rows| == |f.rows| &&
      forall i, c :: 0 <= i < |f.rows| && c in f.rows[i] && c in f.columns ==> c in g.rows[i] && g.rows[i][c] == f.rows[i][c]
    decreases |cols|
  {
    if cols != [] {
      var init := cols[..|cols| - 1];
      FillDefaultsKeeps(f, init);
      FillDefaultsColumns(f, init);
    }
  }

  /** A listed column that was missing holds its default in every row. */
  lemma {:induction false} FillDefaultsFills(f: Frame, cols: seq<string>)
    ensures var g := FillDefaults(f, cols);
      |g.rows| == |f.rows| &&
      forall i, c :: 0 <= i < |f.rows| && c in cols && c !in f.columns ==> c in g.rows[i] && g.rows[i][c] == ExportDefault(c)
    decreases |cols|
  {
    if cols != [] {
      var init := cols[..|cols| - 1];
      FillDefaultsFills(f, init);
      FillDefaultsColumns(f, init);
      var g := FillDefaults(f, init);
      var c := cols[|cols| - 1];
      assert forall d :: d in cols <==> d in init || d == c;
      if c in g.columns {
        forall i | 0 <= i < |f.rows| && c !in f.columns ensures c in g.rows[i] && g.rows[i][c] == ExportDefault(c) {
          assert c in init;
        }
      }
    }
  }

  /** The export table: the defaults filled in, then the timestamp and the run id added. */
  function ExportFrame(table: Frame, runId: int, now: Value): Frame {
    WithColumn(WithColumn(FillDefaults(table, ExportColumns), "Timestamp", now), "RunId", Int(runId))
  }

  /**
   * The export table has a row per table row, every export column, and
   * `Timestamp` and `RunId` as its last two columns, holding the call's time
   * and run id in every row.
   */
  lemma ExportFrameShape(table: Frame, runId: int, now: Value)
    ensures var e := ExportFrame(table, runId, now);
      && |e.rows| == |table.rows|
      && (forall c :: c in ExportColumns ==> c in e.columns)
      && |e.columns| >= 2 && e.columns[|e.columns| - 2..] == ["Timestamp", "RunId"]
      && forall i :: 0 <= i < |e.rows| ==>
           "Timestamp" in e.rows[i] && e.rows[i]["Timestamp"] == now &&
           "RunId" in e.rows[i] && e.rows[i]["RunId"] == Int(runId)
  {
    FillDefaultsColumns(table, ExportColumns);
    var g := FillDefaults(table, ExportColumns);
    var t := WithColumn(g, "Timestamp", now);
    var e := WithColumn(t, "RunId", Int(runId));
    assert e.columns == g.columns + ["Timestamp"] + ["RunId"];
    assert e.columns[|e.columns| - 2..] == ["Timestamp", "RunId"];
  }

  // ---------------------------------------------------------------------------
  // The whole call
  // ---------------------------------------------------------------------------

  /** The flags the caller passes. */
  datatype Options = Options(extended: bool, countRows: bool, exportTable: bool)

  /** What the call observes of the outside world. */
  datatype World = World(
    apiPages: Option<seq<Value>>,    // None when the API call raised
    schemaDirs: seq<SchemaDir>,      // the Tables folder of the mounted lakehouse
    storage: Storage,
    guardrail: Guardrail,
    attached: bool,                  // whether a lakehouse is attached to the notebook
    storedMaxRunId: int,             // the largest RunId already exported
    now: Value)                      // the export timestamp

  /** The returned table and, when exporting, the table appended to `lakehouse_table_details`. */
  datatype Outcome = Outcome(table: Frame, exported: Option<Frame>)

  function ListTables(workspace: Resolved, lakehouse: Resolved, w: World,
                   abfss: (string, string, string, string) -> string): Result<Listing, Error>
  {
    match w.apiPages
    case Some(pages) => ApiListing(workspace, lakehouse, pages)
    case None => Ok(Listed(FolderRows(workspace, lakehouse, w.schemaDirs, abfss)))
  }

  function Tabulate(rows: seq<TableRow>, workspace: Resolved, lakehouse: Resolved, opts: Options, w: World,
                    abfss: (string, string, string, string) -> string): Result<Frame, Error>
  {
    if !ExtendedMode(opts.extended, opts.countRows) then Ok(BaseFrame(rows))
    else
      var scan :- ScanRows(rows, w.storage, opts.countRows, lakehouse.id, workspace.id, abfss);
      ExtendedNeedsManaged(rows, w.storage, opts.countRows, lakehouse.id, workspace.id, abfss);
      ExtendedFrame(rows, scan.details, w.guardrail, opts.countRows)
  }

  /** get_lakehouse_tables from the listing to the export. */
  function LakehouseTables(workspace: Resolved, lakehouse: Resolved, opts: Options, w: World,
                           abfss: (string, string, string, string) -> string): Result<Outcome, Error>
  {
    var listing :- ListTables(workspace, lakehouse, w, abfss);
    match listing
    case EmptyListing => Ok(Outcome(BaseFrame([]), None))
    case Listed(rows) =>
      var table :- Tabulate(rows, workspace, lakehouse, opts, w, abfss);
      if !opts.exportTable then Ok(Outcome(table, None))
      else if !w.attached then Err(LakehouseNotAttached)
      else Ok(Outcome(table, Some(ExportFrame(table, RunId(table, w.storedMaxRunId), w.now))))
  }

  /** The rows of one API page, record by record. */
  method CollectApiPage(workspace: Resolved, lakehouse: Resolved, page: Value) returns (res: Result<seq<TableRow>, Error>)
    ensures res == ApiPageRows(workspace, lakehouse, page)
  {
    var data := GetOr(page, "data", Arr([]));
    if data.Err? {
      return Err(data.error);
    }
    var items := Iterate(data.value);
    if items.Err? {
      return Err(items.error);
    }
    var rowFn := ApiRowFn(workspace, lakehouse);
    var rows: seq<TableRow> := [];
    var k := 0;
    while k < |items.value|
      invariant 0 <= k <= |items.value|
      invariant MapAll(items.value[..k], rowFn) == Ok(rows)
    {
      MapAllSnoc(items.value, k, rowFn);
      var row := rowFn(items.value[k]);
      if row.Err? {
        return Err(row.error);
      }
      rows := rows + [row.value];
      k := k + 1;
    }
    assert items.value[..k] == items.value;
    return Ok(rows);
  }

  /** The API rows, page by page. */
  method ListApiRows(workspace: Resolved, lakehouse: Resolved, pages: seq<Value>) returns (res: Result<Listing, Error>)
    ensures res == ApiListing(workspace, lakehouse, pages)
  {
    if |pages| == 0 {
      return Err(IndexError);
    }
    var first := Get(pages[0], "data");
    if first.Err? {
      return Err(first.error);
    }
    if !Truthy(first.value) {
      return Ok(EmptyListing);
    }
    var pageFn := ApiPageFn(workspace, lakehouse);
    var rows: seq<TableRow> := [];
    var p := 0;
    while p < |pages|
      invariant 0 <= p <= |pages|
      invariant ConcatAll(pages[..p], pageFn) == Ok(rows)
    {
      ConcatAllSnoc(pages, p, pageFn);
      var pageRows := CollectApiPage(workspace, lakehouse, pages[p]);
      if pageRows.Err? {
        return Err(pageRows.error);
      }
      rows := rows + pageRows.value;
      p := p + 1;
    }
    assert pages[..p] == pages;
    return Ok(Listed(rows));
  }

  /** get_lakehouse_tables: the listing, the measuring loop, the export defaults. */
  method GetLakehouseTables(workspace: Resolved, lakehouse: Resolved, opts: Options, w: World,
                            abfss: (string, string, string, string) -> string) returns (res: Result<Outcome, Error>)
    ensures res == LakehouseTables(workspace, lakehouse, opts, w, abfss)
  {
    var listing: Result<Listing, Error>;
    if w.apiPages.Some? {
      listing := ListApiRows(workspace, lakehouse, w.apiPages.value);
    } else {
      var rows := ListFolderRows(workspace, lakehouse, w.schemaDirs, abfss);
      listing := Ok(Listed(rows));
    }
    if listing.Err? {
      return Err(listing.error);
    }
    if listing.value.EmptyListing? {
      return Ok(Outcome(BaseFrame([]), None));
    }
    var rows := listing.value.rows;
    var table: Frame;
    if !ExtendedMode(opts.extended, opts.countRows) {
      table := BaseFrame(rows);
    } else {
      var details := ScanTables(rows, w.storage, opts.countRows, lakehouse.id, workspace.id, abfss);
      if details.Err? {
        return Err(details.error);
      }
      ExtendedNeedsManaged(rows, w.storage, opts.countRows, lakehouse.id, workspace.id, abfss);
      var extendedTable := ExtendedFrame(rows, details.value, w.guardrail, opts.countRows);
      if extendedTable.Err? {
        return Err(extendedTable.error);
      }
      table := extendedTable.value;
    }
    if !opts.exportTable {
      return Ok(Outcome(table, None));
    }
    if !w.attached {
      return Err(LakehouseNotAttached);
    }
    var runId := RunId(table, w.storedMaxRunId);
    var filled := FillExportDefaults(table);
    var exported := WithColumn(WithColumn(filled, "Timestamp", w.now), "RunId", Int(runId));
    return Ok(Outcome(table, Some(exported)));
  }

  /** The run id is 1 exactly when no listed table is the export table itself. */
  lemma RunIdSpec(table: Frame, storedMax: int)
    ensures RunId(table, storedMax) == 1 <==>
      (forall i :: 0 <= i < |table.rows| ==>
         !("Table Name" in table.rows[i] && table.rows[i]["Table Name"] == Str(ExportTableName))) || storedMax == 0
    ensures (exists i :: 0 <= i < |table.rows| && "Table Name" in table.rows[i] &&
                         table.rows[i]["Table Name"] == Str(ExportTableName)) ==>
      RunId(table, storedMax) == storedMax + 1
  {
  }

  /** An empty first API page returns the empty base table: nothing is measured and nothing exported. */
  lemma EmptyFirstPage(workspace: Resolved, lakehouse: Resolved, opts: Options, w: World,
                       abfss: (string, string, string, string) -> string)
    requires w.apiPages.Some? && |w.apiPages.value| > 0 && w.apiPages.value[0].Obj?
    requires !Truthy(Cell(w.apiPages.value[0].fields, "data"))
    ensures LakehouseTables(workspace, lakehouse, opts, w, abfss) == Ok(Outcome(Frame(BaseColumns, []), None))
  {
    assert ApiListing(workspace, lakehouse, w.apiPages.value) == Ok(EmptyListing);
    assert BaseFrame([]) == Frame(BaseColumns, []);
  }

  /**
   * When the tables API fails, the listing is the folder listing, and every
   * listed table is a managed Delta table.
   */
  lemma FolderFallback(workspace: Resolved, lakehouse: Resolved, w: World,
                       abfss: (string, string, string, string) -> string)
    requires w.apiPages.None?
    ensures var l := ListTables(workspace, lakehouse, w, abfss);
      && l == Ok(Listed(FolderRows(workspace, lakehouse, w.schemaDirs, abfss)))
      && forall k :: 0 <= k < |l.value.rows| ==> IsManagedDelta(l.value.rows[k])
  {
    FolderRowsSpec(workspace, lakehouse, w.schemaDirs, abfss);
  }

  /**
   * Once the table is built, the call returns it; without `export` nothing is
   * exported, and with `export` and an attached lakehouse the export table of
   * that table and its run id is.
   */
  lemma TableOutcome(workspace: Resolved, lakehouse: Resolved, opts: Options, w: World,
                     abfss: (string, string, string, string) -> string, rows: seq<TableRow>, table: Frame)
    requires ListTables(workspace, lakehouse, w, abfss) == Ok(Listed(rows))
    requires Tabulate(rows, workspace, lakehouse, opts, w, abfss) == Ok(table)
    requires !opts.exportTable || w.attached
    ensures LakehouseTables(workspace, lakehouse, opts, w, abfss) ==
            Ok(Outcome(table, if opts.exportTable then Some(ExportFrame(table, RunId(table, w.storedMaxRunId), w.now))
                              else None))
  {
  }

  /**
   * `count_rows` forces extended mode: the table is the one `extended` would
   * give, and when it is built it has the extended columns with the row count.
   */
  lemma CountRowsImpliesExtended(rows: seq<TableRow>, workspace: Resolved, lakehouse: Resolved, opts: Options, w: World,
                                 abfss: (string, string, string, string) -> string)
    requires opts.countRows
    ensures Tabulate(rows, workspace, lakehouse, opts, w, abfss) ==
            Tabulate(rows, workspace, lakehouse, opts.(extended := true), w, abfss)
    ensures var t := Tabulate(rows, workspace, lakehouse, opts, w, abfss);
      t.Ok? ==> t.value.columns == ExtendedColumns(true)
  {
  }

  /** Without `extended` or `count_rows` the table is the listed rows, unmeasured. */
  lemma BaseModeTable(rows: seq<TableRow>, workspace: Resolved, lakehouse: Resolved, opts: Options, w: World,
                      abfss: (string, string, string, string) -> string)
    requires !opts.extended && !opts.countRows
    ensures var t := Tabulate(rows, workspace, lakehouse, opts, w, abfss);
      t == Ok(BaseFrame(rows)) && t.value.columns == BaseColumns && |t.value.rows| == |rows|
  {
  }

  /** Exporting without an attached lakehouse raises once the table has been built. */
  lemma ExportNeedsAttachedLakehouse(workspace: Resolved, lakehouse: Resolved, opts: Options, w: World,
                                     abfss: (string, string, string, string) -> string)
    requires opts.exportTable && !w.attached
    requires ListTables(workspace, lakehouse, w, abfss).Ok? && ListTables(workspace, lakehouse, w, abfss).value.Listed?
    requires Tabulate(ListTables(workspace, lakehouse, w, abfss).value.rows, workspace, lakehouse, opts, w, abfss).Ok?
    ensures LakehouseTables(workspace, lakehouse, opts, w, abfss) == Err(LakehouseNotAttached)
  {
  }
}
