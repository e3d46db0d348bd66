/** The SQLite data connection: creating it from a configuration and registering it,
    running SQL through the sql.js engine, and reading, parsing, sorting and caching
    the schema held in SQLite's `sqlite_schema` catalog table. */
module Sqlite {
  import opened Wrappers
  import opened Errors
  import opened SqlJs
  import opened SqliteParser
  import opened Schema

  /** What `configs.connection` holds: a connection string, a descriptor object that may
      carry a `buffer`, or nothing at all. */
  datatype ConnectionSource =
    | ConnectionString(text: string)
    | Descriptor(buffer: Option<Buffer>)
    | NoSource

  /** DataConnectionConfigs, reduced to the two fields `create` reads. */
  datatype Configs = Configs(client: string, connection: ConnectionSource)

  /** The catalog query `getSchema` issues; the `not like` filter runs inside the engine. */
  const CatalogQuery: string :=
    "select type, tbl_name, sql from sqlite_schema where tbl_name not like 'sqlite_%'"

  /** The checks `create` makes, in the order it makes them; on success, the buffer to
      open. A connection string is refused first; then any client other than "sqlite3"
      and any descriptor without a buffer. A missing descriptor makes reading `.buffer`
      throw. */
  function ValidateConfigs(configs: Configs): (r: Result<Buffer, Error>)
    ensures r.Success? <==>
              configs.client == "sqlite3" && configs.connection.Descriptor? && configs.connection.buffer.Some?
    ensures r.Success? ==> r.value == configs.connection.buffer.value
    ensures configs.connection.ConnectionString? ==> r == Failure(NotImplementedYet)
    ensures !configs.connection.ConnectionString? && configs.client != "sqlite3" ==> r == Failure(InMemoryOnly)
    ensures configs.connection == Descriptor(None) ==> r.Failure? && r.error.InMemoryOnly?
    ensures configs.connection.NoSource? && configs.client == "sqlite3" ==> r == Failure(TypeError("buffer"))
  {
    match configs.connection
    case ConnectionString(_) => Failure(NotImplementedYet)
    case NoSource => if configs.client != "sqlite3" then Failure(InMemoryOnly) else Failure(TypeError("buffer"))
    case Descriptor(buffer) =>
      if configs.client != "sqlite3" || buffer.None? then Failure(InMemoryOnly) else Success(buffer.value)
  }

  /** The database `create` opens: the validated buffer handed to `new engine.Database`,
      whose own exception is passed on. */
  function Open(configs: Configs, engine: Engine): Result<Image, Error> {
    var buffer :- ValidateConfigs(configs);
    match engine.open(buffer)
    case Failure(message) => Failure(EngineError(message))
    case Success(image) => Success(image)
  }

  /** `getResults`' outcome for one engine run: its result sets unchanged, or its exception. */
  function ExecResults(execution: Execution): Result<seq<ResultSet>, Error> {
    match execution.results
    case Failure(message) => Failure(EngineError(message))
    case Success(results) => Success(results)
  }

  /** `getResult`'s check on what `getResults` gave for `sql`: the one result set, or a
      cardinality error carrying the count; an exception passes through. */
  function SingleResult(sql: string, results: Result<seq<ResultSet>, Error>): (r: Result<ResultSet, Error>)
    ensures r.Success? <==> results.Success? && |results.value| == 1
    ensures r.Success? ==> r.value == results.value[0]
    ensures results.Failure? ==> r == Failure(results.error)
    ensures results.Success? && |results.value| != 1 ==> r == Failure(CardinalityError(sql, |results.value|))
  {
    var sets :- results;
    if |sets| != 1 then Failure(CardinalityError(sql, |sets|)) else Success(sets[0])
  }

  /** The entities built from the catalog query's single result set, in catalog order. */
  function CatalogEntities(catalog: Result<ResultSet, Error>, parser: Parser): Result<seq<DataSchema>, Error> {
    var result :- catalog;
    CollectEntities(result.values, parser)
  }

  /** Any reordering of the entities built from the catalog holds exactly one entity for
      each row with SQL text, and each entity is the one that text describes. */
  lemma SchemaMatchesCatalog(s: seq<DataSchema>, rows: seq<seq<SqlValue>>, parser: Parser)
    requires CollectEntities(rows, parser).Success?
    requires multiset(s) == multiset(CollectEntities(rows, parser).value)
    ensures |s| == |SqlTexts(rows)|
    ensures forall e :: e in s ==> exists k :: 0 <= k < |SqlTexts(rows)| && Describes(e, SqlTexts(rows)[k], parser)
    ensures forall k :: 0 <= k < |SqlTexts(rows)| ==> exists e :: e in s && Describes(e, SqlTexts(rows)[k], parser)
  {
    var texts, built := SqlTexts(rows), CollectEntities(rows, parser).value;
    CollectEntitiesMeaning(rows, parser);
    assert |s| == |multiset(s)| == |multiset(built)| == |built|;
    forall e | e in s
      ensures exists k :: 0 <= k < |texts| && Describes(e, texts[k], parser)
    {
      assert e in multiset(built);
      var k :| 0 <= k < |built| && built[k] == e;
      assert ParseEntity(texts[k], parser) == Success(e);
    }
    forall k | 0 <= k < |texts|
      ensures exists e :: e in s && Describes(e, texts[k], parser)
    {
      assert built[k] in multiset(built);
      assert ParseEntity(texts[k], parser) == Success(built[k]);
    }
  }

  /** The process-wide registry `DataConnection._connections`, passed by reference. */
  class Registry {
    var connections: seq<SqliteDataConnection>

    constructor ()
      ensures connections == []
    {
      connections := [];
    }
  }

  /** One open SQLite database: the engine it runs on, the database image (`_database`),
      and the cached schema (`_schema`, absent until first built). */
  class SqliteDataConnection {
    const configs: Configs
    const engine: Engine
    var database: Image
    var schema: Option<seq<DataSchema>>

    /** The SQL texts sent to the engine so far, in order. */
    ghost var executed: seq<string>

    /** A cached schema is always in kind-then-name order. */
    ghost predicate Valid()
      reads this
    {
      schema.Some? ==> SchemaSorted(schema.value)
    }

    constructor (configs: Configs, engine: Engine, database: Image)
      ensures this.configs == configs && this.engine == engine && this.database == database
      ensures schema == None && executed == []
      ensures Valid()
    {
      this.configs := configs;
      this.engine := engine;
      this.database := database;
      schema := None;
      executed := [];
    }

    /** Validates `configs`, opens the database from its buffer and appends the new
        connection to the registry; on any failure the registry is left as it was. */
    static method Create(configs: Configs, engine: Engine, registry: Registry) returns (r: Result<SqliteDataConnection, Error>)
      modifies registry
      ensures r.Success? <==> Open(configs, engine).Success?
      ensures r.Failure? ==> r.error == Open(configs, engine).error && registry.connections == old(registry.connections)
      ensures r.Success? ==>
        && fresh(r.value)
        && r.value.Valid()
        && r.value.configs == configs
        && r.value.engine == engine
        && r.value.database == Open(configs, engine).value
        && r.value.schema == None
        && r.value.executed == []
        && registry.connections == old(registry.connections) + [r.value]
    {
      var buffer := ValidateConfigs(configs);
      if buffer.Failure? {
        return Failure(buffer.error);
      }
      var image := engine.open(buffer.value);
      if image.Failure? {
        return Failure(EngineError(image.error));
      }
      var connection := new SqliteDataConnection(configs, engine, image.value);
      registry.connections := registry.connections + [connection];
      r := Success(connection);
    }

    /** Runs `sql` and returns every result set the engine produced, or its exception.
        Statements that ran before a failing one stay applied to the database. */
    method GetResults(sql: string) returns (r: Result<seq<ResultSet>, Error>)
      modifies this
      ensures r == ExecResults(engine.exec(old(database), sql))
      ensures database == engine.exec(old(database), sql).next
      ensures executed == old(executed) + [sql]
      ensures schema == old(schema)
    {
      var execution := engine.exec(database, sql);
      database := execution.next;
      executed := executed + [sql];
      r := ExecResults(execution);
    }

    /** Runs `sql` and returns its one result set; any other number of result sets is an error. */
    method GetResult(sql: string) returns (r: Result<ResultSet, Error>)
      modifies this
      ensures r == SingleResult(sql, ExecResults(engine.exec(old(database), sql)))
      ensures database == engine.exec(old(database), sql).next
      ensures executed == old(executed) + [sql]
      ensures schema == old(schema)
    {
      var results := GetResults(sql);
      r := SingleResult(sql, results);
    }

    /** Returns the cached schema unless `refresh` is set or nothing is cached; otherwise
        reads the catalog, parses each row's SQL text, sorts the entities by kind and
        name and caches them. A parse failure aborts and keeps the previous cache. */
    method GetSchema(refresh: bool, parser: Parser) returns (r: Result<seq<DataSchema>, Error>)
      requires Valid()
      modifies this
      ensures Valid()
      ensures !refresh && old(schema).Some? ==>
        && r == Success(old(schema).value)
        && schema == old(schema)
        && database == old(database)
        && executed == old(executed)
      ensures refresh || old(schema).None? ==>
        var execution := engine.exec(old(database), CatalogQuery);
        var built := CatalogEntities(SingleResult(CatalogQuery, ExecResults(execution)), parser);
        && database == execution.next
        && executed == old(executed) + [CatalogQuery]
        && (r.Success? <==> built.Success?)
        && (r.Failure? ==> r.error == built.error && schema == old(schema))
        && (r.Success? ==> schema == Some(r.value) && SchemaSorted(r.value) && multiset(r.value) == multiset(built.value))
    {
      if refresh || schema.None? {
        var result := GetResult(CatalogQuery);
        if result.Failure? {
          return Failure(result.error);
        }
        var rows := result.value.values;
        var entities: seq<DataSchema> := [];
        for i := 0 to |rows|
          invariant CollectEntities(rows[..i], parser) == Success(entities)
        {
          assert rows[..i + 1][..i] == rows[..i];
          match CatalogSql(rows[i]) {
            case None =>
            case Some(sql) =>
              var entity := ParseEntity(sql, parser);
              if entity.Failure? {
                CollectPrefixFailure(rows, i + 1, parser);
                return Failure(entity.error);
              }
              entities := entities + [entity.value];
          }
        }
        assert rows[..|rows|] == rows;
        var sorted := new DataSchema[|entities|](k requires 0 <= k < |entities| => entities[k]);
        assert sorted[..] == entities;
        SortSchema(sorted);
        schema := Some(sorted[..]);
      }
      r := Success(schema.value);
    }
  }
}
