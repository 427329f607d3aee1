/**
  What the benchmark asks of its database connection, one event per driver call,
  in the order the calls are made. The connection itself is not modelled; a run is
  described by the events it issues and by the table state it leaves.
 */
module Connection {
  import opened Base

  datatype Event =
    | Execute(sql: string)                     // cursor.execute of a plain statement
    | CopyOut(sql: string)                     // cursor.copy_expert of a `copy ... to stdout`
    | CopyIn(sql: string, payload: seq<byte>)  // cursor.copy_expert of a `copy ... from stdin`, with the bytes sent
    | Commit
    | Rollback
    | SetAutocommit(on: bool)                  // conn.set_session(autocommit=on)
    | ReadWallClock                            // datetime.utcnow()
    | ReadMonotonicClock                       // time.monotonic()
}
