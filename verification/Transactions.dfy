/** What each transaction of backend/internal/repository/base.go, release_authorization.go
    and certificate_record.go does to a snapshot of the tables. */
module Transactions {
  import opened Records
  import opened Statuses

  /** What a read returns: the row, and the revisions fetched by a second query. */
  datatype View = View(item: Record, log: seq<Revision>)

  function NewRevision(key: Key, item: Record, who: Caller, action: Action, reason: string): Revision {
    Revision(key, item.version, item.status, item.fields.evidence, who.actor, who.requestId, action, reason)
  }

  function NewAudit(who: Caller, action: Action, key: Key, before: AuditState, after: AuditState,
                    detail: string): Audit
  {
    Audit(if who.actor == "" then "system" else who.actor,
          if who.requestId == "" then "untracked" else who.requestId,
          action, key, before, after, detail)
  }

  function CreateReason(kind: Kind): string {
    if kind == Certificate then "certificate prepared" else "authorization drafted"
  }

  function CreateDetail(kind: Kind): string {
    if kind == Certificate then "certificate version 1 prepared" else "authorization version 1 drafted"
  }

  function DeleteDetail(kind: Kind): string {
    if kind == Certificate then "soft deleted 证书记录" else "soft deleted 放行授权"
  }

  /** The unique index on codes spans live and soft-deleted rows of one table. */
  predicate CodeTaken(rows: map<Key, Row>, kind: Kind, code: string) {
    exists key :: key in rows && key.kind == kind && rows[key].record.code == code
  }

  function NextKey(db: Db, kind: Kind): Key {
    Key(kind, db.nextId)
  }

  function CreateVersion(db: Db, item: Record, who: Caller): Result<Db> {
    var key := NextKey(db, item.Kind());
    if CodeTaken(db.rows, item.Kind(), item.code) then Err(DuplicateCode)
    else Ok(Db(db.rows[key := Row(item, false)],
               db.revisions + [NewRevision(key, item, who, CreateAction, CreateReason(item.Kind()))],
               db.audits + [NewAudit(who, CreateAction, key, Blank, In(item.status), CreateDetail(item.Kind()))],
               db.nextId + 1))
  }

  /** The compare-and-set on the version, with its revision and its audit row. The code is
      not written. */
  function UpdateVersion(db: Db, key: Key, expected: nat, item: Record, who: Caller,
                         action: Action, before: Status, reason: string): Result<Db> {
    if Live(db, key) && db.rows[key].record.version == expected then
      Ok(Db(db.rows[key := Row(item.(code := db.rows[key].record.code), false)],
            db.revisions + [NewRevision(key, item, who, action, reason)],
            db.audits + [NewAudit(who, action, key, In(before), In(item.status), reason)],
            db.nextId))
    else Err(Conflict)
  }

  function SoftDelete(db: Db, key: Key): Result<Db> {
    if Live(db, key) then Ok(db.(rows := db.rows[key := Row(db.rows[key].record, true)]))
    else Err(NotFound)
  }

  function Read(db: Db, key: Key): Result<View> {
    if Live(db, key) then Ok(View(db.rows[key].record, LogOf(db.revisions, key))) else Err(NotFound)
  }
}
