/** The legal-text service: the list read and the stamped partial update. */
module LegalTextService {
  import opened Wrappers
  import opened Types
  import opened Store

  const Table := "legal_texts"

  /** A `legal_texts` row. */
  datatype LegalRow = LegalRow(
    id: string, kind: LegalKind, title: string, content: string, is_active: bool, updated_at: string)

  /** An object sent to `legal_texts`. */
  datatype LegalColumns = LegalColumns(
    title: Option<Value>, content: Option<Value>, is_active: Option<Value>, updated_at: Option<Value>)

  /** The fields of `Partial<LegalText>` that `update` reads. */
  datatype LegalChanges = LegalChanges(title: Option<string>, content: Option<string>, isActive: Option<bool>)

  function MapLegalText(l: LegalRow): (r: LegalText)
    ensures r.kind == l.kind && r.isActive == l.is_active && r.updatedAt == l.updated_at
    ensures r.title == l.title && r.content == l.content
    ensures r.id == l.id
  {
    LegalText(l.id, l.kind, l.title, l.content, l.is_active, l.updated_at)
  }

  /** The object `update` sends: the defined fields, and always the time of the write. */
  function UpdateChanges(t: LegalChanges, now: string): (c: LegalColumns)
    ensures c.updated_at == Some(JStr(now))
    ensures c.title == OptStr(t.title) && c.content == OptStr(t.content) && c.is_active == OptBool(t.isActive)
  {
    LegalColumns(OptStr(t.title), OptStr(t.content), OptBool(t.isActive), Some(JStr(now)))
  }

  predicate Holds(c: LegalColumns, row: LegalRow) {
    && (c.title.Some? ==> c.title.value == JStr(row.title))
    && (c.content.Some? ==> c.content.value == JStr(row.content))
    && (c.is_active.Some? ==> c.is_active.value == JBool(row.is_active))
    && (c.updated_at.Some? ==> c.updated_at.value == JStr(row.updated_at))
  }

  /** An updated text reads back with the given fields and stamped with the time of the write. */
  lemma UpdateReadBack(t: LegalChanges, now: string, stored: LegalRow)
    requires Holds(UpdateChanges(t, now), stored)
    ensures var r := MapLegalText(stored);
      && (t.title.Some? ==> r.title == t.title.value)
      && (t.content.Some? ==> r.content == t.content.value)
      && (t.isActive.Some? ==> r.isActive == t.isActive.value)
      && r.updatedAt == now
  {
  }

  /** `getAll`: never fails; an error or missing data gives no texts. */
  function GetAll(reply: Reply<seq<LegalRow>>): (r: seq<LegalText>)
    ensures reply.error.Some? || reply.data.None? ==> r == []
    ensures reply.error.None? && reply.data.Some? ==>
      |r| == |reply.data.value| && forall i :: 0 <= i < |r| ==> r[i] == MapLegalText(reply.data.value[i])
  {
    MapAllOrEmpty(reply, MapLegalText)
  }

  /** `update`: writes the changes of the text `id` and maps the returned row; an error is rethrown. */
  function Update(id: string, t: LegalChanges, now: string, reply: Outcome<LegalRow>): (r: (Command<LegalColumns>, Outcome<LegalText>))
    ensures r.0 == UpdateWhereId(Table, id, UpdateChanges(t, now))
    ensures r.1.Err? <==> reply.Err?
    ensures r.1.Ok? ==> r.1.value == MapLegalText(reply.value)
  {
    (UpdateWhereId(Table, id, UpdateChanges(t, now)), MapOneOrThrow(reply, MapLegalText))
  }
}
