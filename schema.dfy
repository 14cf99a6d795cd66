/** DBHelper: the four table descriptors of okgo.db (version 3), the
    statements onCreate issues, and the migration onUpgrade and onDowngrade
    issue between versions. SQL text is replaced by the operation it
    performs. */
module Schema {

  /** DB_CACHE_VERSION */
  const DB_VERSION: int := 3

  datatype TableName = Cache | Cookie | DownloadTable | UploadTable

  /** The table names as they appear in the SQL. */
  function TableText(t: TableName): string {
    match t
    case Cache => "cache"
    case Cookie => "cookie"
    case DownloadTable => "download"
    case UploadTable => "upload"
  }

  /** The column-name constants of CacheEntity, SerializableCookie and
      Progress, by the constant they are read from. */
  datatype ColumnName =
    | Key | LocalExpire | Head | Data                          // CacheEntity
    | Host | CookieName | Domain | CookieBlob                  // SerializableCookie
    | Tag | Url | Folder | FilePath | FileName | Fraction      // Progress
    | TotalSize | CurrentSize | StatusColumn | Priority | Date
    | Request | Extra1 | Extra2 | Extra3 | FileSuffix | TempFileName

  datatype SqlType = Varchar | Integer | Blob

  /** A ColumnEntity: a typed column with its primary-key and not-null flags,
      or a composite primary key over several columns. */
  datatype Column =
    | Field(name: ColumnName, sqlType: SqlType, primary: bool, notNull: bool)
    | CompositeKey(names: seq<ColumnName>)

  /** new ColumnEntity(name, type) */
  function Plain(name: ColumnName, sqlType: SqlType): Column {
    Field(name, sqlType, false, false)
  }

  /** An abstract statement passed to db.execSQL. */
  datatype Ddl =
    | AddColumn(table: TableName, column: ColumnName, sqlType: SqlType)   // ALTER TABLE .. ADD COLUMN ..
    | DropTable(table: TableName)                                       // DROP TABLE IF EXISTS ..
    | CreateTable(table: TableName, columns: seq<Column>)               // buildTableString()

  // ---- the descriptors built in the constructor ----

  function CacheColumns(): seq<Column> {
    [Field(Key, Varchar, true, true), Plain(LocalExpire, Integer), Plain(Head, Blob), Plain(Data, Blob)]
  }

  function CookieColumns(): seq<Column> {
    [Plain(Host, Varchar), Plain(CookieName, Varchar), Plain(Domain, Varchar), Plain(CookieBlob, Blob),
     CompositeKey([Host, CookieName, Domain])]
  }

  /** The columns added to the download table, lines 72-88. */
  function DownloadColumns(): seq<Column> {
    [Field(Tag, Varchar, true, true), Plain(Url, Varchar), Plain(Folder, Varchar), Plain(FilePath, Varchar),
     Plain(FileName, Varchar), Plain(Fraction, Varchar), Plain(TotalSize, Integer), Plain(CurrentSize, Integer),
     Plain(StatusColumn, Integer), Plain(Priority, Integer), Plain(Date, Integer), Plain(Request, Blob),
     Plain(Extra1, Blob), Plain(Extra2, Blob), Plain(Extra3, Blob), Plain(FileSuffix, Varchar),
     Plain(TempFileName, Varchar)]
  }

  /** The columns added to the upload table, lines 90-106. */
  function UploadColumns(): seq<Column> {
    [Field(Tag, Varchar, true, true), Plain(Url, Varchar), Plain(Folder, Varchar), Plain(FilePath, Varchar),
     Plain(FileName, Varchar), Plain(Fraction, Varchar), Plain(TotalSize, Integer), Plain(CurrentSize, Integer),
     Plain(StatusColumn, Integer), Plain(Priority, Integer), Plain(Date, Integer), Plain(Request, Blob),
     Plain(Extra1, Blob), Plain(Extra2, Blob), Plain(Extra3, Blob), Plain(FileSuffix, Varchar),
     Plain(TempFileName, Varchar)]
  }

  function Descriptor(t: TableName): seq<Column> {
    match t
    case Cache => CacheColumns()
    case Cookie => CookieColumns()
    case DownloadTable => DownloadColumns()
    case UploadTable => UploadColumns()
  }

  /** The names of the columns flagged as primary keys, in order. */
  function PrimaryKeys(cols: seq<Column>): seq<ColumnName>
    decreases |cols|
  {
    if cols == [] then []
    else if cols[0].Field? && cols[0].primary then [cols[0].name] + PrimaryKeys(cols[1..])
    else PrimaryKeys(cols[1..])
  }

  /** The column-name lists of the composite keys, in order. */
  function CompositeKeys(cols: seq<Column>): seq<seq<ColumnName>>
    decreases |cols|
  {
    if cols == [] then []
    else if cols[0].CompositeKey? then [cols[0].names] + CompositeKeys(cols[1..])
    else CompositeKeys(cols[1..])
  }

  /** The download and upload tables have the same ordered columns; tag is
      their only primary key, and the two columns migration adds are their
      last two. */
  lemma TransferTablesAgree()
    ensures DownloadColumns() == UploadColumns()
    ensures PrimaryKeys(Descriptor(DownloadTable)) == [Tag]
    ensures var d := Descriptor(DownloadTable);
      |d| == 17 && d[15] == Plain(FileSuffix, Varchar) && d[16] == Plain(TempFileName, Varchar)
  {
    var d := DownloadColumns();
    assert d == [d[0]] + d[1..];
    assert forall i :: 1 <= i < |d| ==> !d[i].primary;
    NoPrimaryKeys(d[1..]);
  }

  lemma {:induction false} NoPrimaryKeys(cols: seq<Column>)
    requires forall i :: 0 <= i < |cols| ==> !(cols[i].Field? && cols[i].primary)
    ensures PrimaryKeys(cols) == []
    decreases |cols|
  {
    if cols != [] {
      NoPrimaryKeys(cols[1..]);
    }
  }

  /** Plain and typed fields contribute nothing to the composite keys. */
  lemma {:induction false} SkipFields(cols: seq<Column>, k: nat)
    requires k <= |cols|
    requires forall i :: 0 <= i < k ==> cols[i].Field?
    ensures CompositeKeys(cols) == CompositeKeys(cols[k..])
    decreases k
  {
    if k > 0 {
      SkipFields(cols[1..], k - 1);
      assert cols[1..][k - 1..] == cols[k..];
    }
  }

  /** The cache table is keyed by CacheEntity.KEY alone and has no composite key. */
  lemma CacheKeyedByKey()
    ensures PrimaryKeys(Descriptor(Cache)) == [Key]
    ensures CompositeKeys(Descriptor(Cache)) == []
  {
    var c := CacheColumns();
    NoPrimaryKeys(c[1..]);
    SkipFields(c, 4);
  }

  /** The cookie table has no single-column key: its one key is the
      composite of host, name and domain, each of them a column of it. */
  lemma CookieKeyedByComposite()
    ensures PrimaryKeys(Descriptor(Cookie)) == []
    ensures CompositeKeys(Descriptor(Cookie)) == [[Host, CookieName, Domain]]
    ensures forall n :: n in [Host, CookieName, Domain] ==> Plain(n, Varchar) in Descriptor(Cookie)
  {
    var c := CookieColumns();
    NoPrimaryKeys(c);
    SkipFields(c, 4);
    assert c[4..] == [CompositeKey([Host, CookieName, Domain])];
  }

  // ---- the statements ----

  /** The order in which onCreate and the fallback of onUpgrade visit the tables. */
  function Rank(t: TableName): nat {
    match t
    case Cache => 0
    case Cookie => 1
    case DownloadTable => 2
    case UploadTable => 3
  }

  /** onCreate: create cache, cookie, download and upload, in that order. */
  function CreateAll(): seq<Ddl> {
    [CreateTable(Cache, Descriptor(Cache)), CreateTable(Cookie, Descriptor(Cookie)),
     CreateTable(DownloadTable, Descriptor(DownloadTable)), CreateTable(UploadTable, Descriptor(UploadTable))]
  }

  lemma CreateAllInOrder()
    ensures |CreateAll()| == 4
    ensures forall i :: 0 <= i < 4 ==> CreateAll()[i].CreateTable? && Rank(CreateAll()[i].table) == i
    ensures forall i :: 0 <= i < 4 ==> CreateAll()[i].columns == Descriptor(CreateAll()[i].table)
  {
  }

  /** The fallback of onUpgrade drops the tables whose live shape needs an
      upgrade (DBUtils.isNeedUpgradeTable, here the set `stale`). */
  function Drops(stale: set<TableName>): seq<Ddl> {
    (if Cache in stale then [DropTable(Cache)] else [])
    + (if Cookie in stale then [DropTable(Cookie)] else [])
    + (if DownloadTable in stale then [DropTable(DownloadTable)] else [])
    + (if UploadTable in stale then [DropTable(UploadTable)] else [])
  }

  /** The fallback only drops, and drops exactly the stale tables. */
  lemma DropsExactlyStale(stale: set<TableName>)
    ensures forall d :: d in Drops(stale) ==> d.DropTable?
    ensures forall t :: DropTable(t) in Drops(stale) <==> t in stale
  {
    forall t
      ensures DropTable(t) in Drops(stale) <==> t in stale
    {
      match t
      case Cache =>
      case Cookie =>
      case DownloadTable =>
      case UploadTable =>
    }
  }

  /** The drops come in table order, so no table is dropped twice. */
  lemma DropsInTableOrder(stale: set<TableName>)
    ensures forall i, j :: 0 <= i < j < |Drops(stale)| ==> Rank(Drops(stale)[i].table) < Rank(Drops(stale)[j].table)
  {
  }

  /** file_suffix and temp_filename, added to download and then to upload. */
  function AddedFromVersion1(): seq<Ddl> {
    [AddColumn(DownloadTable, FileSuffix, Varchar), AddColumn(UploadTable, FileSuffix, Varchar),
     AddColumn(DownloadTable, TempFileName, Varchar), AddColumn(UploadTable, TempFileName, Varchar)]
  }

  /** temp_filename, added to download and then to upload. */
  function AddedFromVersion2(): seq<Ddl> {
    [AddColumn(DownloadTable, TempFileName, Varchar), AddColumn(UploadTable, TempFileName, Varchar)]
  }

  /** onUpgrade(old, new): the (1, 3) block, then the (2, 3) block or, since
      that `if` is not chained to the first, the drop-and-recreate fallback
      for every pair other than (2, 3), (1, 3) included. */
  function Migration(oldVersion: int, newVersion: int, stale: set<TableName>): seq<Ddl> {
    (if newVersion == 3 && oldVersion == 1 then AddedFromVersion1() else [])
    + Second(oldVersion, newVersion, stale)
  }

  /** The second `if` of onUpgrade, whose `else` is the fallback. */
  function Second(oldVersion: int, newVersion: int, stale: set<TableName>): seq<Ddl> {
    if newVersion == 3 && oldVersion == 2 then AddedFromVersion2() else Drops(stale) + CreateAll()
  }

  /** From version 2: temp_filename is added to download and upload, and
      nothing is dropped or created. */
  lemma UpgradeFromVersion2(stale: set<TableName>)
    ensures Migration(2, 3, stale) == [AddColumn(DownloadTable, TempFileName, Varchar), AddColumn(UploadTable, TempFileName, Varchar)]
    ensures forall d :: d in Migration(2, 3, stale) ==> d.AddColumn?
  {
  }

  /** From version 1: both columns are added, and then the fallback still
      drops the stale tables and recreates all four. */
  lemma UpgradeFromVersion1(stale: set<TableName>)
    ensures var m := Migration(1, 3, stale);
      && m[..4] == AddedFromVersion1()
      && m[4..] == Drops(stale) + CreateAll()
  {
  }

  /** Every other pair drops exactly the stale tables and then issues the
      four creations of onCreate, and adds no column. */
  lemma UpgradeOtherwise(oldVersion: int, newVersion: int, stale: set<TableName>)
    requires !(newVersion == 3 && (oldVersion == 1 || oldVersion == 2))
    ensures Migration(oldVersion, newVersion, stale) == Drops(stale) + CreateAll()
    ensures forall t :: DropTable(t) in Migration(oldVersion, newVersion, stale) <==> t in stale
    ensures forall d :: d !in Migration(oldVersion, newVersion, stale) || !d.AddColumn?
  {
    DropsExactlyStale(stale);
    var m := Migration(oldVersion, newVersion, stale);
    forall t ensures DropTable(t) in m <==> t in stale {
      assert DropTable(t) in m <==> DropTable(t) in Drops(stale) || DropTable(t) in CreateAll();
    }
    forall d | d in m ensures !d.AddColumn? {
      assert d in Drops(stale) || d in CreateAll();
    }
  }

  /** Every column the migration adds is a column of the version-3
      descriptor of its table, with the same type. */
  lemma AddedColumnsAreDescribed()
    ensures forall a :: a in AddedFromVersion1() + AddedFromVersion2() ==>
      Plain(a.column, a.sqlType) in Descriptor(a.table)
  {
    var d := DownloadColumns();
    var u := UploadColumns();
    assert d[15] == Plain(FileSuffix, Varchar) && d[16] == Plain(TempFileName, Varchar);
    assert u[15] == Plain(FileSuffix, Varchar) && u[16] == Plain(TempFileName, Varchar);
  }

  // ---- the objects ----

  /** A TableEntity: a table name and the columns added to it in order. */
  class TableEntity {
    const name: TableName
    var columns: seq<Column>

    constructor (name: TableName)
      ensures this.name == name && columns == []
    {
      this.name := name;
      columns := [];
    }

    /** addColumn(column), which returns the entity for chaining. */
    method AddColumn(c: Column) returns (self: TableEntity)
      modifies this
      ensures columns == old(columns) + [c] && self == this
    {
      columns := columns + [c];
      self := this;
    }
  }

  /** The SQLiteDatabase a helper issues statements to; `stale` is what
      isNeedUpgradeTable answers for each table. */
  class Database {
    const stale: set<TableName>
    var executed: seq<Ddl>

    constructor (stale: set<TableName>)
      ensures this.stale == stale && executed == []
    {
      this.stale := stale;
      executed := [];
    }

    method ExecSql(d: Ddl)
      modifies this
      ensures executed == old(executed) + [d]
    {
      executed := executed + [d];
    }
  }

  class DBHelper {
    const cacheTable: TableEntity
    const cookieTable: TableEntity
    const downloadTable: TableEntity
    const uploadTable: TableEntity

    /** The four entities name the four tables. */
    predicate Named() {
      && cacheTable.name == Cache && cookieTable.name == Cookie
      && downloadTable.name == DownloadTable && uploadTable.name == UploadTable
    }

    /** The four entities name the four tables and hold their descriptors. */
    ghost predicate Valid()
      reads cacheTable, cookieTable, downloadTable, uploadTable
    {
      && Named()
      && cacheTable.columns == Descriptor(Cache) && cookieTable.columns == Descriptor(Cookie)
      && downloadTable.columns == Descriptor(DownloadTable) && uploadTable.columns == Descriptor(UploadTable)
    }

    /** The constructor's chain of addColumn calls on one entity: one call
        per column of `cols`, in order, each on the entity the previous call
        returned. */
    static method Describe(t: TableEntity, cols: seq<Column>)
      modifies t
      ensures t.columns == old(t.columns) + cols
    {
      var e := t;
      var i := 0;
      while i < |cols|
        invariant 0 <= i <= |cols| && e == t
        invariant t.columns == old(t.columns) + cols[..i]
      {
        e := e.AddColumn(cols[i]);
        i := i + 1;
      }
    }

    /** DBHelper(context): the four entities, filled by chained addColumn calls. */
    constructor ()
      ensures Valid()
      ensures fresh(cacheTable) && fresh(cookieTable) && fresh(downloadTable) && fresh(uploadTable)
    {
      var c := new TableEntity(Cache);
      var k := new TableEntity(Cookie);
      var d := new TableEntity(DownloadTable);
      var u := new TableEntity(UploadTable);
      Describe(c, CacheColumns());
      Describe(k, CookieColumns());
      Describe(d, DownloadColumns());
      Describe(u, UploadColumns());
      cacheTable, cookieTable, downloadTable, uploadTable := c, k, d, u;
    }

    method OnCreate(db: Database)
      requires Valid()
      modifies db
      ensures db.executed == old(db.executed) + CreateAll()
    {
      db.ExecSql(CreateTable(cacheTable.name, cacheTable.columns));
      db.ExecSql(CreateTable(cookieTable.name, cookieTable.columns));
      db.ExecSql(CreateTable(downloadTable.name, downloadTable.columns));
      db.ExecSql(CreateTable(uploadTable.name, uploadTable.columns));
    }

    /** The (1, 3) block. */
    method AddFromVersion1(db: Database)
      modifies db
      ensures db.executed == old(db.executed) + AddedFromVersion1()
    {
      db.ExecSql(AddColumn(DownloadTable, FileSuffix, Varchar));
      db.ExecSql(AddColumn(UploadTable, FileSuffix, Varchar));
      db.ExecSql(AddColumn(DownloadTable, TempFileName, Varchar));
      db.ExecSql(AddColumn(UploadTable, TempFileName, Varchar));
    }

    /** The (2, 3) block. */
    method AddFromVersion2(db: Database)
      modifies db
      ensures db.executed == old(db.executed) + AddedFromVersion2()
    {
      db.ExecSql(AddColumn(DownloadTable, TempFileName, Varchar));
      db.ExecSql(AddColumn(UploadTable, TempFileName, Varchar));
    }

    /** The drops of the fallback. */
    method DropStale(db: Database)
      requires Named()
      modifies db
      ensures db.executed == old(db.executed) + Drops(db.stale)
    {
      ghost var e := db.executed;
      if cacheTable.name in db.stale {
        db.ExecSql(DropTable(Cache));
      }
      ghost var e1 := db.executed;
      if cookieTable.name in db.stale {
        db.ExecSql(DropTable(Cookie));
      }
      ghost var e2 := db.executed;
      if downloadTable.name in db.stale {
        db.ExecSql(DropTable(DownloadTable));
      }
      ghost var e3 := db.executed;
      if uploadTable.name in db.stale {
        db.ExecSql(DropTable(UploadTable));
      }
      assert db.executed == e + (e1[|e|..] + e2[|e1|..] + e3[|e2|..] + db.executed[|e3|..]);
    }

    method OnUpgrade(db: Database, oldVersion: int, newVersion: int)
      requires Valid()
      modifies db
      ensures db.executed == old(db.executed) + Migration(oldVersion, newVersion, db.stale)
    {
      if newVersion == 3 && oldVersion == 1 {
        AddFromVersion1(db);
      }
      SecondBlock(db, oldVersion, newVersion);
    }

    /** The second `if` of onUpgrade and its `else`, the fallback. */
    method SecondBlock(db: Database, oldVersion: int, newVersion: int)
      requires Valid()
      modifies db
      ensures db.executed == old(db.executed) + Second(oldVersion, newVersion, db.stale)
    {
      if newVersion == 3 && oldVersion == 2 {
        AddFromVersion2(db);
      } else {
        DropStale(db);
        OnCreate(db);
      }
    }

    method OnDowngrade(db: Database, oldVersion: int, newVersion: int)
      requires Valid()
      modifies db
      ensures db.executed == old(db.executed) + Migration(oldVersion, newVersion, db.stale)
    {
      OnUpgrade(db, oldVersion, newVersion);
    }
  }
}
