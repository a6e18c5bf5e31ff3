/**
 * unload_safra: export the fixed list of tables to Parquet files, in chunks
 * of `chunk_size` rows. The file system is a `Disk` holding the directories
 * made and the files written, each file holding the rows copied into it.
 */
module Unload {
  import opened Wrappers
  import opened Decimal
  import opened Tables
  import opened Db
  import opened Settings

  /** The tables exported, in order. */
  const ExportOrder: seq<string> := [Cnaes, RegimeTributario, Simples, Socios, Empresas, Estabelecimentos]

  const ParquetFormat: string := "parquet"

  datatype UnloadError =
    | NotImplemented(format: string)   // NotImplementedError for a format other than parquet
    | MissingTable(name: string)       // SELECT COUNT(*) on a table that does not exist
    | ZeroDivision                     // total_rows // chunk_size with chunk_size == 0

  /** The directories made and the files written. */
  datatype DiskState = DiskState(dirs: set<string>, files: map<string, seq<Row>>)

  // ----- paths -----

  /** `if not export_path`: both None and the empty string select the default folder. */
  function UnloadRoot(raw: string, safra: string, exportPath: Option<string>): string
  {
    if exportPath.None? || exportPath.value == "" then Join([Join([raw, safra]), FolderUnload])
    else Join([exportPath.value, safra])
  }

  function ParquetDir(root: string): string
  {
    Join([root, "format_parquet"])
  }

  function TableDir(root: string, tbl: string): string
  {
    Join([ParquetDir(root), tbl])
  }

  /** `{table folder}/{tbl}_{file_number}.parquet`. */
  function FileName(root: string, tbl: string, k: nat): string
  {
    TableDir(root, tbl) + "/" + tbl + "_" + Render(k) + ".parquet"
  }

  lemma TableDirShape(root: string, tbl: string)
    ensures TableDir(root, tbl) == ParquetDir(root) + "/" + tbl
  {
    assert [ParquetDir(root), tbl][..1] == [ParquetDir(root)];
    assert Join([ParquetDir(root)]) == ParquetDir(root);
  }

  /** Two file numbers of one table never give the same file name. */
  lemma FileNameInjective(root: string, tbl: string, j: nat, k: nat)
    requires FileName(root, tbl, j) == FileName(root, tbl, k)
    ensures j == k
  {
    var p := TableDir(root, tbl) + "/" + tbl + "_";
    var x := Render(j) + ".parquet";
    var y := Render(k) + ".parquet";
    assert p + x == FileName(root, tbl, j) && p + y == FileName(root, tbl, k);
    assert x == (p + x)[|p|..] == (p + y)[|p|..] == y;
    assert Render(j) == x[..|x| - 8] == y[..|y| - 8] == Render(k);
    RenderInjective(j, k);
  }

  /** A path lies under the folder of the table whose name starts with `t[..2]`. */
  predicate OwnedBy(p: string, root: string, t: string)
  {
    var q := ParquetDir(root) + "/";
    |t| >= 2 && |p| >= |q| + 2 && p[..|q|] == q && p[|q|] == t[0] && p[|q| + 1] == t[1]
  }

  /** Every file of a table lies under that table's folder, and under no folder with other initials. */
  lemma FileNameOwned(root: string, t: string, u: string, k: nat)
    requires |t| >= 2 && |u| >= 2
    ensures OwnedBy(FileName(root, t, k), root, t)
    ensures (t[0] != u[0] || t[1] != u[1]) ==> !OwnedBy(FileName(root, t, k), root, u)
  {
    var q := ParquetDir(root) + "/";
    var p := FileName(root, t, k);
    TableDirShape(root, t);
    var tail := "/" + t + "_" + Render(k) + ".parquet";
    assert p == q + (t + tail);
    assert p[..|q|] == q;
    assert p[|q|] == t[0] && p[|q| + 1] == t[1];
  }

  /** The exported tables have pairwise distinct two-letter initials. */
  predicate Initials(tbls: seq<string>)
  {
    && (forall i :: 0 <= i < |tbls| ==> |tbls[i]| >= 2)
    && forall i, j :: 0 <= i < j < |tbls| ==> tbls[i][0] != tbls[j][0] || tbls[i][1] != tbls[j][1]
  }

  lemma ExportOrderInitials()
    ensures Initials(ExportOrder)
  {
    assert ExportOrder[0][..2] == "cn" && ExportOrder[1][..2] == "re" && ExportOrder[2][..2] == "si";
    assert ExportOrder[3][..2] == "so" && ExportOrder[4][..2] == "em" && ExportOrder[5][..2] == "es";
  }

  // ----- paging -----

  /** The number of offsets in range(0, n, c): ceil(n / c) for a positive step, none otherwise. */
  function FileCount(n: nat, c: int): nat
  {
    if c <= 0 || n == 0 then 0 else (n - 1) / c + 1
  }

  /** The offset of file k is below n exactly when k is one of the file numbers. */
  lemma OffsetBelow(n: nat, c: int, k: nat)
    requires c > 0
    ensures k * c < n <==> k < FileCount(n, c)
  {
    if n > 0 {
      var q := (n - 1) / c;
      assert q * c <= n - 1 < (q + 1) * c;
      if k <= q {
        MulMono(k, q, c);
      } else {
        MulMono(q + 1, k, c);
      }
    }
  }

  lemma MulMono(a: nat, b: nat, c: nat)
    requires a <= b
    ensures a * c <= b * c
  {
  }

  lemma MulSucc(k: nat, c: int)
    ensures (k + 1) * c == k * c + c
  {
  }

  /** file_number = offset // chunk_size recovers k from the k-th offset. */
  lemma FileNumber(k: nat, c: int)
    requires c > 0
    ensures (k * c) / c == k
  {
    var q := (k * c) / c;
    var r := (k * c) % c;
    assert k * c == q * c + r && 0 <= r < c;
    if q < k {
      MulMono(q + 1, k, c);
    } else if q > k {
      MulMono(k + 1, q, c);
    }
  }

  /** The file count is the ceiling of n / c: the last offset is below n and the next is not. */
  lemma FileCountCeil(n: nat, c: int)
    requires c > 0
    ensures n == 0 <==> FileCount(n, c) == 0
    ensures FileCount(n, c) > 0 ==> (FileCount(n, c) - 1) * c < n <= FileCount(n, c) * c
  {
    if FileCount(n, c) > 0 {
      OffsetBelow(n, c, FileCount(n, c) - 1);
      OffsetBelow(n, c, FileCount(n, c));
    }
  }

  function Min(a: int, b: int): int
  {
    if a <= b then a else b
  }

  /** SELECT * FROM tbl LIMIT c OFFSET k * c. */
  function ChunkAt(rows: seq<Row>, c: int, k: nat): (chunk: seq<Row>)
    requires c > 0 && k < FileCount(|rows|, c)
    ensures |chunk| <= c
  {
    OffsetBelow(|rows|, c, k);
    rows[k * c .. Min(k * c + c, |rows|)]
  }

  /** Every chunk but the last is full; the last holds between one and c rows. */
  lemma ChunkSizes(rows: seq<Row>, c: int, k: nat)
    requires c > 0 && k < FileCount(|rows|, c)
    ensures k < FileCount(|rows|, c) - 1 ==> |ChunkAt(rows, c, k)| == c
    ensures k == FileCount(|rows|, c) - 1 ==> 0 < |ChunkAt(rows, c, k)|
  {
    OffsetBelow(|rows|, c, k);
    OffsetBelow(|rows|, c, k + 1);
    assert (k + 1) * c == k * c + c;
  }

  /** The first m chunks, concatenated. */
  function Gather(rows: seq<Row>, c: int, m: nat): seq<Row>
    requires c > 0 && m <= FileCount(|rows|, c)
  {
    if m == 0 then [] else Gather(rows, c, m - 1) + ChunkAt(rows, c, m - 1)
  }

  /** The first m chunks are the first m * c rows (or all of them). */
  lemma {:induction false} GatherPrefix(rows: seq<Row>, c: int, m: nat)
    requires c > 0 && m <= FileCount(|rows|, c)
    ensures Gather(rows, c, m) == rows[..Min(m * c, |rows|)]
  {
    if m > 0 {
      GatherPrefix(rows, c, m - 1);
      OffsetBelow(|rows|, c, m - 1);
      MulSucc(m - 1, c);
      var lo := (m - 1) * c;
      var hi := Min(m * c, |rows|);
      assert Min(lo, |rows|) == lo;
      assert rows[..lo] + rows[lo..hi] == rows[..hi];
    }
  }

  /** The chunks are disjoint and together they are the whole table, in order. */
  lemma ChunksCover(rows: seq<Row>, c: int)
    requires c > 0
    ensures Gather(rows, c, FileCount(|rows|, c)) == rows
  {
    GatherPrefix(rows, c, FileCount(|rows|, c));
    FileCountCeil(|rows|, c);
  }

  /** `rounds = max(total_rows // chunk_size, 1)`, used only in the progress messages. */
  function Rounds(n: nat, c: int): int
    requires c != 0
  {
    if c < 0 then 1   // floor division of n >= 0 by a negative step is never above 0
    else if n / c > 1 then n / c else 1
  }

  /**
   * The rounds reported differ from the files written: by one in excess for
   * an empty table, and by at most one short otherwise.
   */
  lemma RoundsVersusFiles(n: nat, c: int)
    requires c > 0
    ensures n == 0 ==> Rounds(n, c) == 1 && FileCount(n, c) == 0
    ensures n > 0 ==> Rounds(n, c) <= FileCount(n, c) <= Rounds(n, c) + 1
  {
    if n > 0 {
      FileCountCeil(n, c);
      var f := FileCount(n, c);
      var q := n / c;
      assert q * c + n % c == n && 0 <= n % c < c;
      MulSucc(q, c);
      MulSucc(f - 1, c);
      if f > q + 1 {
        MulMono(q + 1, f - 1, c);
      }
      if q > f {
        MulMono(f + 1, q, c);
        MulSucc(f, c);
      }
    }
  }

  /** Three rows in chunks of two: two files, but one round in the messages. */
  lemma RoundsExample()
    ensures FileCount(3, 2) == 2 && Rounds(3, 2) == 1
  {
  }

  // ----- what one table leaves on disk -----

  /** The files of the first m chunks of a table, one COPY after the other. */
  function Written(root: string, tbl: string, rows: seq<Row>, c: int, m: nat): map<string, seq<Row>>
    requires c > 0 && m <= FileCount(|rows|, c)
  {
    if m == 0 then map[] else Written(root, tbl, rows, c, m - 1)[FileName(root, tbl, m - 1) := ChunkAt(rows, c, m - 1)]
  }

  /** File k of the first m holds chunk k: no later COPY overwrites it. */
  lemma {:induction false} WrittenAt(root: string, tbl: string, rows: seq<Row>, c: int, m: nat, k: nat)
    requires c > 0 && m <= FileCount(|rows|, c) && k < m
    ensures FileName(root, tbl, k) in Written(root, tbl, rows, c, m)
    ensures Written(root, tbl, rows, c, m)[FileName(root, tbl, k)] == ChunkAt(rows, c, k)
  {
    if k < m - 1 {
      WrittenAt(root, tbl, rows, c, m - 1, k);
      if FileName(root, tbl, m - 1) == FileName(root, tbl, k) {
        FileNameInjective(root, tbl, m - 1, k);
      }
    }
  }

  /** The name of a later file is not among the first m. */
  lemma {:induction false} WrittenFresh(root: string, tbl: string, rows: seq<Row>, c: int, m: nat, j: nat)
    requires c > 0 && m <= FileCount(|rows|, c) && m <= j
    ensures FileName(root, tbl, j) !in Written(root, tbl, rows, c, m)
  {
    if m > 0 {
      WrittenFresh(root, tbl, rows, c, m - 1, j);
      if FileName(root, tbl, m - 1) == FileName(root, tbl, j) {
        FileNameInjective(root, tbl, m - 1, j);
      }
    }
  }

  /** A table split into m files leaves exactly m distinct file names. */
  lemma {:induction false} WrittenCount(root: string, tbl: string, rows: seq<Row>, c: int, m: nat)
    requires c > 0 && m <= FileCount(|rows|, c)
    ensures |Written(root, tbl, rows, c, m).Keys| == m
  {
    if m > 0 {
      WrittenCount(root, tbl, rows, c, m - 1);
      WrittenFresh(root, tbl, rows, c, m - 1, m - 1);
    }
  }

  /** Every file written for a table lies under that table's folder and under no folder with other initials. */
  lemma {:induction false} WrittenOwned(root: string, tbl: string, rows: seq<Row>, c: int, m: nat, u: string)
    requires c > 0 && m <= FileCount(|rows|, c) && |tbl| >= 2 && |u| >= 2
    ensures forall p :: p in Written(root, tbl, rows, c, m) ==> OwnedBy(p, root, tbl)
    ensures (tbl[0] != u[0] || tbl[1] != u[1]) ==> forall p :: p in Written(root, tbl, rows, c, m) ==> !OwnedBy(p, root, u)
  {
    if m > 0 {
      WrittenOwned(root, tbl, rows, c, m - 1, u);
      FileNameOwned(root, tbl, u, m - 1);
    }
  }

  /**
   * One pass of the table loop: the format is checked, the two folders are
   * made, the rows are counted (a missing table raises there), the chunk
   * size divides the count (zero raises), and one file per offset is copied.
   */
  function ExportTable(cat: map<string, Table>, d: DiskState, root: string, tbl: string, format: string, c: int)
    : (DiskState, Outcome<UnloadError>)
  {
    if format != ParquetFormat then (d, Fail(NotImplemented(format)))
    else
      var dirs := d.dirs + {ParquetDir(root)} + {TableDir(root, tbl)};
      if tbl !in cat then (DiskState(dirs, d.files), Fail(MissingTable(tbl)))
      else if c == 0 then (DiskState(dirs, d.files), Fail(ZeroDivision))
      else if c < 0 then (DiskState(dirs, d.files), Pass)
      else
        var rows := cat[tbl].rows;
        (DiskState(dirs, d.files + Written(root, tbl, rows, c, FileCount(|rows|, c))), Pass)
  }

  /** The table loop, stopping at the first table that raises. */
  function ExportTables(cat: map<string, Table>, d: DiskState, root: string, tbls: seq<string>, format: string, c: int)
    : (DiskState, Outcome<UnloadError>)
    decreases |tbls|
  {
    if tbls == [] then (d, Pass)
    else
      var (next, o) := ExportTable(cat, d, root, tbls[0], format, c);
      if o.Fail? then (next, o) else ExportTables(cat, next, root, tbls[1..], format, c)
  }

  /** unload_safra on values: the export folder is made, then the table loop runs. */
  function UnloadPlan(cat: map<string, Table>, d: DiskState, raw: string, safra: string, format: string, c: int,
                      exportPath: Option<string>): (DiskState, Outcome<UnloadError>)
  {
    var root := UnloadRoot(raw, safra, exportPath);
    ExportTables(cat, DiskState(d.dirs + {root}, d.files), root, ExportOrder, format, c)
  }

  // ----- properties of the plan -----

  /** Any format other than parquet raises on the first table, before any folder of a table or any file. */
  lemma FormatChecked(cat: map<string, Table>, d: DiskState, raw: string, safra: string, format: string, c: int,
                      exportPath: Option<string>)
    requires format != ParquetFormat
    ensures UnloadPlan(cat, d, raw, safra, format, c, exportPath) ==
              (DiskState(d.dirs + {UnloadRoot(raw, safra, exportPath)}, d.files), Fail(NotImplemented(format)))
  {
  }

  /** A chunk size of zero writes no file and raises, on the first table. */
  lemma ZeroChunk(cat: map<string, Table>, d: DiskState, raw: string, safra: string, exportPath: Option<string>)
    ensures var (after, o) := UnloadPlan(cat, d, raw, safra, ParquetFormat, 0, exportPath);
      && after.files == d.files
      && o == (if Cnaes in cat then Fail(ZeroDivision) else Fail(MissingTable(Cnaes)))
  {
  }

  /** A negative chunk size writes no file and passes when every table exists (range() is empty). */
  lemma {:induction false} NegativeChunkTables(cat: map<string, Table>, d: DiskState, root: string, tbls: seq<string>, c: int)
    requires c < 0
    ensures var (after, o) := ExportTables(cat, d, root, tbls, ParquetFormat, c);
      && after.files == d.files
      && (o.Pass? <==> forall t :: t in tbls ==> t in cat)
    decreases |tbls|
  {
    if tbls != [] {
      var (next, o) := ExportTable(cat, d, root, tbls[0], ParquetFormat, c);
      if o.Pass? {
        NegativeChunkTables(cat, next, root, tbls[1..], c);
        assert forall t :: t in tbls <==> t == tbls[0] || t in tbls[1..];
      }
    }
  }

  /**
   * With parquet, a positive chunk size and every table present: the loop
   * passes, file k of each table holds its k-th chunk, and every file that
   * lies under none of the tables' folders is left as it was.
   */
  lemma {:induction false} ExportTablesWrites(cat: map<string, Table>, d: DiskState, root: string, tbls: seq<string>, c: int)
    requires c > 0 && Initials(tbls) && forall t :: t in tbls ==> t in cat
    ensures var (after, o) := ExportTables(cat, d, root, tbls, ParquetFormat, c);
      && o.Pass?
      && (forall i, k :: 0 <= i < |tbls| && 0 <= k < FileCount(|cat[tbls[i]].rows|, c) ==>
            FileName(root, tbls[i], k) in after.files
            && after.files[FileName(root, tbls[i], k)] == ChunkAt(cat[tbls[i]].rows, c, k))
      && (forall p :: p in d.files && (forall t :: t in tbls ==> !OwnedBy(p, root, t)) ==>
            p in after.files && after.files[p] == d.files[p])
    decreases |tbls|
  {
    if tbls != [] {
      var t := tbls[0];
      var rows := cat[t].rows;
      var w := Written(root, t, rows, c, FileCount(|rows|, c));
      var (next, o) := ExportTable(cat, d, root, t, ParquetFormat, c);
      assert next.files == d.files + w;
      var rest := tbls[1..];
      assert Initials(rest) by {
        forall i, j | 0 <= i < j < |rest| ensures rest[i][0] != rest[j][0] || rest[i][1] != rest[j][1] {
          assert rest[i] == tbls[i + 1] && rest[j] == tbls[j + 1];
        }
      }
      ExportTablesWrites(cat, next, root, rest, c);
      var after := ExportTables(cat, next, root, rest, ParquetFormat, c).0;
      // the files of `t` lie under no other table's folder
      forall k | 0 <= k < FileCount(|rows|, c)
        ensures FileName(root, t, k) in after.files && after.files[FileName(root, t, k)] == ChunkAt(rows, c, k)
      {
        WrittenAt(root, t, rows, c, FileCount(|rows|, c), k);
        forall u | u in rest ensures !OwnedBy(FileName(root, t, k), root, u) {
          var j :| 0 <= j < |rest| && rest[j] == u;
          assert tbls[j + 1] == u;
          FileNameOwned(root, t, u, k);
        }
      }
      forall p | p in d.files && (forall u :: u in tbls ==> !OwnedBy(p, root, u))
        ensures p in after.files && after.files[p] == d.files[p]
      {
        WrittenOwned(root, t, rows, c, FileCount(|rows|, c), t);
        assert p !in w;
        forall u | u in rest ensures !OwnedBy(p, root, u) {
          assert u in tbls;
        }
      }
      forall i, k | 0 <= i < |tbls| && 0 <= k < FileCount(|cat[tbls[i]].rows|, c)
        ensures FileName(root, tbls[i], k) in after.files
        ensures after.files[FileName(root, tbls[i], k)] == ChunkAt(cat[tbls[i]].rows, c, k)
      {
        if i > 0 {
          assert tbls[i] == rest[i - 1];
        }
      }
    }
  }

  /** The whole export with parquet, a positive chunk size and every table present. */
  lemma UnloadWrites(cat: map<string, Table>, d: DiskState, raw: string, safra: string, c: int, exportPath: Option<string>)
    requires c > 0 && forall t :: t in ExportOrder ==> t in cat
    ensures var root := UnloadRoot(raw, safra, exportPath);
      var (after, o) := UnloadPlan(cat, d, raw, safra, ParquetFormat, c, exportPath);
      && o.Pass?
      && forall i, k :: 0 <= i < |ExportOrder| && 0 <= k < FileCount(|cat[ExportOrder[i]].rows|, c) ==>
           FileName(root, ExportOrder[i], k) in after.files
           && after.files[FileName(root, ExportOrder[i], k)] == ChunkAt(cat[ExportOrder[i]].rows, c, k)
  {
    var root := UnloadRoot(raw, safra, exportPath);
    ExportOrderInitials();
    ExportTablesWrites(cat, DiskState(d.dirs + {root}, d.files), root, ExportOrder, c);
  }

  // ----- the file system and the loops -----

  class Disk {
    var dirs: set<string>
    var files: map<string, seq<Row>>

    constructor (initialDirs: set<string>, initialFiles: map<string, seq<Row>>)
      ensures dirs == initialDirs && files == initialFiles
    {
      dirs := initialDirs;
      files := initialFiles;
    }

    function State(): DiskState
      reads this
    {
      DiskState(dirs, files)
    }

    /** os.makedirs(path, exist_ok=True). */
    method MakeDirs(path: string)
      modifies this
      ensures dirs == old(dirs) + {path} && files == old(files)
    {
      dirs := dirs + {path};
    }

    /** COPY (...) TO path: the file is created or replaced with the rows. */
    method Copy(path: string, rows: seq<Row>)
      modifies this
      ensures files == old(files)[path := rows] && dirs == old(dirs)
    {
      files := files[path := rows];
    }
  }

  /** The offset loop of one table: for offset in range(0, total_rows, chunk_size). */
  method CopyChunks(disk: Disk, root: string, tbl: string, rows: seq<Row>, c: int)
    requires c > 0
    modifies disk
    ensures disk.dirs == old(disk.dirs)
    ensures disk.files == old(disk.files) + Written(root, tbl, rows, c, FileCount(|rows|, c))
  {
    var total := |rows|;
    var offset := 0;
    ghost var k: nat := 0;
    while offset < total
      invariant offset == k * c && k <= FileCount(total, c)
      invariant disk.dirs == old(disk.dirs)
      invariant disk.files == old(disk.files) + Written(root, tbl, rows, c, k)
      decreases total - offset
    {
      OffsetBelow(total, c, k);
      FileNumber(k, c);
      var fileNumber := offset / c;
      var chunk := rows[offset .. Min(offset + c, total)];
      assert chunk == ChunkAt(rows, c, k);
      disk.Copy(FileName(root, tbl, fileNumber), chunk);
      MulSucc(k, c);
      offset := offset + c;
      k := k + 1;
    }
    OffsetBelow(total, c, k);
  }

  /** One pass of the table loop against the database and the disk. */
  method UnloadTable(db: Store, disk: Disk, root: string, tbl: string, format: string, c: int)
    returns (o: Outcome<UnloadError>)
    modifies disk
    ensures (disk.State(), o) == ExportTable(db.catalog, old(disk.State()), root, tbl, format, c)
  {
    if format != ParquetFormat {
      return Fail(NotImplemented(format));
    }
    disk.MakeDirs(ParquetDir(root));
    disk.MakeDirs(TableDir(root, tbl));
    if tbl !in db.catalog {
      return Fail(MissingTable(tbl));
    }
    var total := db.Count(tbl);
    if c == 0 {
      return Fail(ZeroDivision);
    }
    if c > 0 {
      CopyChunks(disk, root, tbl, db.catalog[tbl].rows, c);
    }
    o := Pass;
  }

  /** unload_safra: make the export folder, then unload each table in order. */
  method UnloadSafra(db: Store, disk: Disk, raw: string, safra: string, format: string, c: int,
                     exportPath: Option<string>) returns (o: Outcome<UnloadError>)
    modifies disk
    ensures (disk.State(), o) == UnloadPlan(db.catalog, old(disk.State()), raw, safra, format, c, exportPath)
  {
    var root := UnloadRoot(raw, safra, exportPath);
    disk.MakeDirs(root);
    ghost var plan := UnloadPlan(db.catalog, old(disk.State()), raw, safra, format, c, exportPath);
    var i := 0;
    while i < |ExportOrder|
      invariant 0 <= i <= |ExportOrder|
      invariant plan == ExportTables(db.catalog, disk.State(), root, ExportOrder[i..], format, c)
    {
      o := UnloadTable(db, disk, root, ExportOrder[i], format, c);
      assert ExportOrder[i..][1..] == ExportOrder[i + 1..];
      if o.Fail? {
        return;
      }
      i := i + 1;
    }
    o := Pass;
  }
}
