/** The exceptions the core throws or rethrows, one constructor per distinct source. */
module Errors {
  import Text

  datatype Error =
    /** `create` given a connection string instead of a descriptor. */
    | NotImplementedYet
    /** `create` given a client other than "sqlite3" or a descriptor without a buffer. */
    | InMemoryOnly
    /** JavaScript's TypeError from reading `property` of `undefined`. */
    | TypeError(property: string)
    /** An exception thrown by the sql.js engine, with its message. */
    | EngineError(message: string)
    /** `getResult` saw `count` result sets for `sql` instead of exactly one. */
    | CardinalityError(sql: string, count: nat)
    /** An exception thrown by sqlite-parser, with its message. */
    | ParseError(message: string)

  /** The exception's `toString()`: its class name, a colon and its message. */
  function ErrorText(e: Error): string {
    match e
    case NotImplementedYet => "Error: Not implemented yet"
    case InMemoryOnly =>
      "Error: SqliteDataConnection.connect - can only create in memory connections from buffer data"
    case TypeError(property) =>
      "TypeError: Cannot read properties of undefined (reading '" + property + "')"
    case EngineError(message) => "Error: " + message
    case CardinalityError(sql, count) =>
      "Error: SqliteDataConnection.getResult - sql: '" + sql + "' returned " + Text.Decimal(count) + " results"
    case ParseError(message) => "Error: " + message
  }
}
