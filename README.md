# StarRocks: Hive metastore table events and GRANT statements

This project models two small pieces of the StarRocks frontend, in Dafny:

- **`MetastoreTableEvent`** is the base of every table event the Hive connector
  reads from the metastore's notification stream. It is built in this order:
  the database name must not be null, then the notification's table name must
  not be null. The event then carries a list of partition keys
  (`HivePartitionName`) that holds exactly one key, for the whole table: its
  partition-value list is empty. `getHivePartitionName` returns that key. The
  class also holds the fixed list of table parameters that Hive maintains and
  that an alter check ignores: `transient_lastDdlTime`,
  `numFilesErasureCoded`, `numFiles` and `comment`.
  (module `MetastoreTableEvents`, file `metastore_table_event.dfy`)
- **`GrantPrivilegeStmt`** is the GRANT statement. The full constructor
  stores its arguments. Two convenience constructors build the grantee
  clause for a single user or for a single role, without grant option, and
  attach a new, empty objects holder. `setUserPrivilegeObject` replaces the
  holder's user list with a list of one user. (module `GrantPrivilegeStmts`,
  file `grant_privilege_stmt.dfy`)

The Java constructor of the event can throw. In the model, a class
constructor takes the two names once they are known to be present. The static
method `MetastoreTableEvent.Create` performs the two null checks in the
source's order. It returns `Failure(NullDatabaseName)` or
`Failure(NullTableName)`, or `Success` with a fresh event. The pure function
`ConstructionError` states which error is reported. Java's nullable values
become `Option` (module `Wrappers`, file `wrappers.dfy`).

The code builds each key from the database name, the table name and an empty
value list. It has no catalog component, and the model follows the code.

## Model

| member | source | states |
|---|---|---|
| MetastoreTableEvents.ConstructionError | fe/fe-core/src/main/java/com/starrocks/connector/hive/events/MetastoreTableEvent.java:43-44 | construction fails exactly when the database name or the table name is null; a null database name is the error reported, even when the table name is null too; a null table name is reported only when the database name is present |
| MetastoreTableEvents.MetastoreTableEvent.Create | fe/fe-core/src/main/java/com/starrocks/connector/hive/events/MetastoreTableEvent.java:41-48 | produces no event exactly when a null check fails, with the error `ConstructionError` names; otherwise a fresh event whose `tblName` is the notification's table name and whose key list is the single whole-table key |
| MetastoreTableEvents.MetastoreTableEvent.constructor | fe/fe-core/src/main/java/com/starrocks/connector/hive/events/MetastoreTableEvent.java:33-47 | stores the database and table names (both immutable afterwards) and leaves the key list as exactly `[HivePartitionName(db, table, [])]` (`Valid()`) |
| MetastoreTableEvents.MetastoreTableEvent.GetHivePartitionName | fe/fe-core/src/main/java/com/starrocks/connector/hive/events/MetastoreTableEvent.java:62-67 | defined whenever the list is non-empty and returns its first key; on a constructed event that key carries the event's database and table names and no partition values |
| MetastoreTableEvents.ValidEventHasOneWholeTableKey | fe/fe-core/src/main/java/com/starrocks/connector/hive/events/MetastoreTableEvent.java:38-47 | a constructed event has exactly one key, so `getHivePartitionName` is always defined on it, and that key is the whole table |
| MetastoreTableEvents.ListContains | fe/fe-core/src/main/java/com/starrocks/connector/hive/events/MetastoreTableEvent.java:50-60 | a scan of a parameter list from its head finds a key exactly when the key is in the list |
| MetastoreTableEvents.IsParameterToIgnore | fe/fe-core/src/main/java/com/starrocks/connector/hive/events/MetastoreTableEvent.java:54-60 | a parameter is ignored exactly when it is one of `transient_lastDdlTime`, `numFilesErasureCoded`, `numFiles`, `comment` |
| MetastoreTableEvents.ParametersToIgnoreAreDistinct | fe/fe-core/src/main/java/com/starrocks/connector/hive/events/MetastoreTableEvent.java:54-60 | the immutable ignore list has four entries and no duplicates |
| GrantPrivilegeStmts.GranteeOf | fe/fe-core/src/main/java/com/starrocks/sql/ast/GrantPrivilegeStmt.java:33-40 | a clause has a grantee (a user or a role, as a sum type) exactly when exactly one of user and role is set, and that grantee is the one set |
| GrantPrivilegeStmts.UserGrantClause | fe/fe-core/src/main/java/com/starrocks/sql/ast/GrantPrivilegeStmt.java:33-34 | the user constructor's clause never names both grantees and has no grant option; its grantee is the given user when that is non-null, and it has none otherwise |
| GrantPrivilegeStmts.RoleGrantClause | fe/fe-core/src/main/java/com/starrocks/sql/ast/GrantPrivilegeStmt.java:38-39 | the role constructor's clause never names both grantees and has no grant option; its grantee is the given role when that is non-null, and it has none otherwise |
| GrantPrivilegeStmts.ConvenienceClausesCoverOneGrantee | fe/fe-core/src/main/java/com/starrocks/sql/ast/GrantPrivilegeStmt.java:33-40 | every clause with exactly one grantee and no grant option is the one a convenience constructor builds from that grantee |
| GrantPrivilegeStmts.GrantPrivilegeStmt.constructor | fe/fe-core/src/main/java/com/starrocks/sql/ast/GrantPrivilegeStmt.java:22-28 | privilege types, object type, clause and objects holder are stored unchanged; the holder is shared, not copied |
| GrantPrivilegeStmts.GrantPrivilegeStmt.ForUser | fe/fe-core/src/main/java/com/starrocks/sql/ast/GrantPrivilegeStmt.java:33-36 | the clause's user is the given identity and its role is null, so it never has both grantees and has exactly one when the identity is non-null; grant option is false; the objects holder is fresh and empty |
| GrantPrivilegeStmts.GrantPrivilegeStmt.ForRole | fe/fe-core/src/main/java/com/starrocks/sql/ast/GrantPrivilegeStmt.java:38-41 | the clause's role is the given name and its user is null, so it never has both grantees and has exactly one when the name is non-null; grant option is false; the objects holder is fresh and empty |
| GrantPrivilegeStmts.GrantPrivilegeStmt.SetUserPrivilegeObject | fe/fe-core/src/main/java/com/starrocks/sql/ast/GrantPrivilegeStmt.java:43-45 | the holder's user list becomes exactly `[u]` whatever it held; privilege types, object type, clause and the holder reference are unchanged |

## Left out

- The superclass `MetastoreEvent` is not part of this model. Its constructor derives the database name from the notification, and that name is taken here as an input. The catalog name and the `CacheUpdateProcessor` reference it stores are not modelled.
- `hmsTbl` is not modelled, because it is never assigned in this file.
- Hive's `NotificationEvent` is reduced to its nullable table name. Java lists become Dafny sequences.
- The alter-event check that compares parameters with the ignore list is not in these files. Only the list and a membership test on it are modelled.
- The event cache, its per-key staleness rule, the privilege-object resolver and the grant/revoke coordinator are not in these files.
- `UserIdentity` is an opaque type. The internals of `GrantRevokeClause`, `GrantRevokePrivilegeObjects` and `BaseGrantRevokePrivilegeStmt` are not shown. They are plain records and fields that take the constructor arguments in call-site order, with no validation. Only the user list of the objects holder is modelled. A new holder's list is `None`, meaning it was never set.
- GrantPrivilegeStmts.GrantPrivilegeStmt.constructor: a null clause or a null objects holder is not modelled. Both are taken as present.
- GrantPrivilegeStmts.GrantPrivilegeStmt.SetUserPrivilegeObject: a null identity is not modelled. In Java, `singletonList(null)` would store a one-element list holding null.
- Concurrency (per-key locking, the worker pool, cancellation) and the SQL text for `show grants` are not in these files.
