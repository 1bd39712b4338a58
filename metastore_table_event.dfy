/** Table events read from the Hive metastore's notification stream: how one is
    constructed (with its two null checks), the single whole-table partition key
    it carries, and the table parameters that an alter check ignores. */
module MetastoreTableEvents {
  import opened Wrappers

  /** Key of a cached table or partition: database, table and the ordered
      partition values. No partition values stands for the whole table. */
  datatype HivePartitionName = HivePartitionName(
    databaseName: string,
    tableName: string,
    partitionValues: seq<string>)

  predicate IsWholeTable(p: HivePartitionName) {
    p.partitionValues == []
  }

  /** The part of a metastore notification a table event reads: its table
      name, which the metastore may leave null. */
  datatype NotificationEvent = NotificationEvent(tableName: Option<string>)

  /** Why an event could not be constructed (a null check that failed). */
  datatype NullNameError = NullDatabaseName | NullTableName

  /** The outcome of the constructor's null checks: the database name is
      checked first, so it is the one reported when both names are missing. */
  function ConstructionError(dbName: Option<string>, event: NotificationEvent): (e: Option<NullNameError>)
    ensures e.None? <==> dbName.Some? && event.tableName.Some?
    ensures e == Some(NullDatabaseName) <==> dbName.None?
    ensures e == Some(NullTableName) <==> dbName.Some? && event.tableName.None?
  {
    if dbName.None? then Some(NullDatabaseName)
    else if event.tableName.None? then Some(NullTableName)
    else None
  }

  class MetastoreTableEvent {
    const dbName: string
    const tblName: string
    // Keys of the event to process; for an unpartitioned table the values are empty.
    var hivePartitionNames: seq<HivePartitionName>

    /** The state construction leaves: exactly one key, the whole table. */
    ghost predicate Valid()
      reads this
    {
      hivePartitionNames == [HivePartitionName(dbName, tblName, [])]
    }

    /** Construction once both names are known to be present: the key list
        starts empty and the whole-table key is appended to it. */
    constructor (dbName: string, tblName: string)
      ensures this.dbName == dbName && this.tblName == tblName
      ensures Valid()
    {
      this.dbName := dbName;
      this.tblName := tblName;
      hivePartitionNames := [];
      new;
      var hivePartitionName := HivePartitionName(dbName, tblName, []);
      hivePartitionNames := hivePartitionNames + [hivePartitionName];
    }

    /** Construction from a notification: fails, producing no event, when the
        database name or then the table name is null. */
    static method Create(event: NotificationEvent, dbName: Option<string>)
      returns (r: Result<MetastoreTableEvent, NullNameError>)
      ensures r.Failure? <==> ConstructionError(dbName, event).Some?
      ensures r.Failure? ==> ConstructionError(dbName, event) == Some(r.error)
      ensures r.Success? ==> fresh(r.value) && r.value.Valid()
      ensures r.Success? ==> r.value.dbName == dbName.value && r.value.tblName == event.tableName.value
    {
      if dbName.None? {
        return Failure(NullDatabaseName);
      }
      if event.tableName.None? {
        return Failure(NullTableName);
      }
      var e := new MetastoreTableEvent(dbName.value, event.tableName.value);
      return Success(e);
    }

    /** The one key each event processes: the first of its list. */
    function GetHivePartitionName(): (p: HivePartitionName)
      reads this
      requires |hivePartitionNames| > 0
      ensures p == hivePartitionNames[0]
      ensures Valid() ==> p.databaseName == dbName && p.tableName == tblName && IsWholeTable(p)
    {
      hivePartitionNames[0]
    }
  }

  /** A constructed event always has a first key to hand back, and it is its only key. */
  lemma ValidEventHasOneWholeTableKey(e: MetastoreTableEvent)
    requires e.Valid()
    ensures |e.hivePartitionNames| == 1
    ensures e.GetHivePartitionName() == e.hivePartitionNames[0]
    ensures IsWholeTable(e.hivePartitionNames[0])
  {
  }

  /** Parameters Hive sets on tables and partitions that do not make an alter
      event significant. Immutable, in this order. */
  const ParametersToIgnore: seq<string> :=
    ["transient_lastDdlTime", "numFilesErasureCoded", "numFiles", "comment"]

  /** Membership in a list, scanning from its head. */
  function ListContains(list: seq<string>, key: string): (b: bool)
    ensures b <==> key in list
  {
    |list| > 0 && (list[0] == key || ListContains(list[1..], key))
  }

  /** Whether a table parameter is one the alter check ignores. */
  function IsParameterToIgnore(key: string): (b: bool)
    ensures b <==> key == "transient_lastDdlTime" || key == "numFilesErasureCoded"
                   || key == "numFiles" || key == "comment"
  {
    ListContains(ParametersToIgnore, key)
  }

  /** The ignore list holds four keys and none of them twice. */
  lemma ParametersToIgnoreAreDistinct()
    ensures |ParametersToIgnore| == 4
    ensures forall i, j :: 0 <= i < j < |ParametersToIgnore| ==> ParametersToIgnore[i] != ParametersToIgnore[j]
  {
  }
}
