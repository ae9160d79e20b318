/**
 * Values shared by the connection registry model: the outcome of the
 * registry's operations, the errors it raises, the backends it can choose and
 * the outcomes of the foreign calls (SQLAlchemy, pandas, the file system,
 * the notes reader) that the model takes as parameters.
 */
module Types {

  datatype Option<T> = None | Some(value: T)

  /** Every operation either returns a value or raises one of the errors below. */
  datatype Result<T> = Ok(value: T) | Err(error: Error)

  /**
   * The errors raised by src/database.py, one constructor per message,
   * plus LibraryError for an exception of a library that propagates
   * unchanged. The message texts themselves are represented by the
   * constructor and its payload.
   */
  datatype Error =
    | NotConnected(key: string)                  // "Not connected to the database with key ..."
    | AlreadyExists(key: string, existing: string) // "Database connection with key ... already exists. Existing connection: <path>"
    | UnsupportedExtension(path: string)         // "Unsupported database file extension: <path>"
    | ConnectionFailed(reason: string)           // "Error connecting to database: <reason>"
    | NoActiveConnection(key: string)            // "No active database connection with key ... to disconnect."
    | TargetExists(path: string)                 // "Target file already exists: <path>"
    | TemplateMissing                            // "MS Access empty template database not found: ..."
    | CreateFailed(cause: Error)                 // "Failed to create database: <cause>"
    | LibraryError(reason: string)               // an exception of SQLAlchemy, pandas or the OS, not re-wrapped

  /** Success or failure (with the exception's text) of a foreign call. */
  datatype Outcome = Pass | Fail(reason: string)

  /**
   * What the notes reader does: return the notes, raise the server's own
   * error type (which Connect catches), or raise any other exception
   * (which Connect does not catch at the inner level).
   */
  datatype NotesOutcome =
    | NotesText(text: string)
    | NotesError(reason: string)
    | NotesException(reason: string)

  /** The backend kind chosen from a path; the URL built for it is not modelled. */
  datatype Backend = MemorySqlite | SqliteFile | AccessOdbc

  /**
   * A SQLAlchemy engine. Each Connect creates its own engine, for one
   * backend, one path and one registry key, so two live connections never
   * share an engine.
   */
  datatype Engine = Engine(backend: Backend, path: string, key: string)

  /** What pandas' read_sql does: return the result rows, or raise (with the exception's text). */
  datatype QueryOutcome = Rows(rows: seq<Row>) | Failed(reason: string)

  /** A scalar cell of a query result or a statement parameter. */
  datatype Value = Null | Int(i: int) | Text(s: string) | Bytes(b: seq<bv8>)

  /** One record of a query result, and one set of named statement parameters. */
  type Row = map<string, Value>
  type Params = map<string, Value>
}
