/**
 * The shapes exchanged with the remote data store: JSON column values, the objects
 * written as rows or changes, and the commands the services issue.
 */
module Store {
  import opened Wrappers
  import opened Types

  /** A JSON column value. Scent notes travel as their own object. */
  datatype Value =
    | JStr(s: string)
    | JInt(n: int)
    | JBool(b: bool)
    | JNull
    | JList(items: seq<string>)
    | JNotes(notes: ScentNotes)

  /**
   * A command sent to a table. `P` is the table's column record: one optional JSON value
   * per column, None where the object sent has no such key.
   */
  datatype Command<P> =
    | Insert(table: string, row: P)
    | UpdateWhereId(table: string, id: string, changes: P)
    | DeleteWhereId(table: string, id: string)

  function OptStr(o: Option<string>): Option<Value> {
    if o.Some? then Some(JStr(o.value)) else None
  }

  function OptInt(o: Option<int>): Option<Value> {
    if o.Some? then Some(JInt(o.value)) else None
  }

  function OptBool(o: Option<bool>): Option<Value> {
    if o.Some? then Some(JBool(o.value)) else None
  }

  /** A nullable string column as JSON. */
  function NullableStr(o: Option<string>): Value {
    if o.Some? then JStr(o.value) else JNull
  }

  function NullableInt(o: Option<int>): Value {
    if o.Some? then JInt(o.value) else JNull
  }

  /** `value || null`: an empty string is written as null. */
  function EmptyAsNull(s: string): (v: Value)
    ensures v == JNull <==> s == ""
  {
    if s == "" then JNull else JStr(s)
  }

  /** What reading back `value || null` gives. */
  function NonEmpty(o: Option<string>): (r: Option<string>)
    ensures r.Some? <==> o.Some? && o.value != ""
    ensures r.Some? ==> r == o
  {
    if o.Some? && o.value != "" then o else None
  }

  /**
   * A list reply: an error is rethrown unchanged, and otherwise the rows are mapped
   * in order, with missing data read as no rows.
   */
  function MapAllOrThrow<R, T>(reply: Reply<seq<R>>, f: R -> T): (r: Outcome<seq<T>>)
    ensures reply.error.Some? <==> r.Err?
    ensures r.Err? ==> r.fault == reply.error.value
    ensures r.Ok? ==>
      |r.value| == |reply.data.GetOr([])| && forall i :: 0 <= i < |r.value| ==> r.value[i] == f(reply.data.GetOr([])[i])
  {
    if reply.error.Some? then Err(reply.error.value)
    else var rows := reply.data.GetOr([]); Ok(seq(|rows|, i requires 0 <= i < |rows| => f(rows[i])))
  }

  /** A list reply whose error is swallowed: an error, or missing data, reads as no rows. */
  function MapAllOrEmpty<R, T>(reply: Reply<seq<R>>, f: R -> T): (r: seq<T>)
    ensures reply.error.Some? || reply.data.None? ==> r == []
    ensures reply.error.None? && reply.data.Some? ==>
      |r| == |reply.data.value| && forall i :: 0 <= i < |r| ==> r[i] == f(reply.data.value[i])
  {
    if reply.error.Some? || reply.data.None? then []
    else var rows := reply.data.value; seq(|rows|, i requires 0 <= i < |rows| => f(rows[i]))
  }

  /** A single-row reply: an error is rethrown unchanged, and the row is mapped otherwise. */
  function MapOneOrThrow<R, T>(reply: Outcome<R>, f: R -> T): (r: Outcome<T>)
    ensures r.Err? <==> reply.Err?
    ensures r.Err? ==> r.fault == reply.fault
    ensures r.Ok? ==> r.value == f(reply.value)
  {
    match reply
    case Ok(row) => Ok(f(row))
    case Err(fault) => Err(fault)
  }

  /** A reply that carries no data (update or delete without select): only the error matters. */
  function ThrowIfError(error: Option<Fault>): (r: Outcome<()>)
    ensures r.Err? <==> error.Some?
    ensures r.Err? ==> r.fault == error.value
  {
    if error.Some? then Err(error.value) else Ok(())
  }
}
