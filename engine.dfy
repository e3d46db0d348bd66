/** The sql.js engine, seen from the connection: it opens a database image from a
    byte buffer and executes SQL text against an image. Both are foreign code and
    are modelled as total functions supplied by the caller. */
module SqlJs {
  import opened Wrappers

  type Byte = bv8

  /** The bytes of an SQLite database file, as handed to `new engine.Database(buffer)`. */
  type Buffer = seq<Byte>

  /** The contents of an open in-memory database. */
  type Image = seq<Byte>

  /** One cell of a result row (sql.js's SqlValue; numbers are kept integral). */
  datatype SqlValue = Null | Number(n: int) | Text(s: string) | Blob(bytes: seq<Byte>)

  /** sql.js's QueryExecResult: the column names and the rows of one statement. */
  datatype ResultSet = ResultSet(columns: seq<string>, values: seq<seq<SqlValue>>)

  /** What `Database.exec` leaves behind: the database after the statements that ran,
      and either one result set per statement that produced rows or the engine's message. */
  datatype Execution = Execution(next: Image, results: Result<seq<ResultSet>, string>)

  datatype Engine = Engine(
    open: Buffer -> Result<Image, string>,
    exec: (Image, string) -> Execution)
}

/** The sqlite-parser library: SQL text in, a list of statement trees out, or an
    exception. Only the parts of a statement tree the core reads are modelled. */
module SqliteParser {
  import opened Wrappers

  /** The four kinds of schema object the catalog holds (`ast.format`). */
  datatype Kind = Table | Index | View | Trigger

  /** One parsed `CREATE ...` statement: its format, `name?.name` and `target?.name`. */
  datatype Statement = Statement(format: Kind, name: Option<string>, target: Option<string>)

  /** The parser's result: the `statement` list wrapper. */
  datatype Program = Program(statement: seq<Statement>)

  type Parser = string -> Result<Program, string>
}
