/** The repository object of backend/internal/repository, statement by statement. */
module Repositories {
  import opened Records
  import opened Statuses
  import opened Transactions

  /** The tables behind a connection. A transaction either runs all its statements or, when
      one of them fails, leaves every table as it was. */
  class Repository {
    var rows: map<Key, Row>
    var revisions: seq<Revision>
    var audits: seq<Audit>
    var nextId: nat

    ghost function Contents(): Db
      reads this
    {
      Db(rows, revisions, audits, nextId)
    }

    constructor (db: Db)
      ensures Contents() == db
    {
      rows, revisions, audits, nextId := db.rows, db.revisions, db.audits, db.nextId;
    }

    method Get(key: Key) returns (r: Result<View>)
      ensures r == Read(Contents(), key)
      ensures r == if key in rows && !rows[key].deleted then Ok(View(rows[key].record, LogOf(revisions, key)))
                   else Err(NotFound)
    {
      if key !in rows || rows[key].deleted {
        return Err(NotFound);
      }
      var item := rows[key].record;
      var log := [];
      for i := 0 to |revisions|
        invariant log == LogOf(revisions[..i], key)
      {
        assert revisions[..i + 1] == revisions[..i] + [revisions[i]];
        LogOfAppend(revisions[..i], revisions[i], key);
        if revisions[i].key == key {
          log := log + [revisions[i]];
        }
      }
      assert revisions[..|revisions|] == revisions;
      r := Ok(View(item, log));
    }

    /** Returns the number of rows that matched both the key and the version. */
    method OptimisticUpdate(key: Key, expected: nat, item: Record) returns (affected: nat)
      modifies this`rows
      ensures affected == if old(Live(Contents(), key) && rows[key].record.version == expected) then 1 else 0
      ensures rows == if affected == 1 then old(rows)[key := Row(item.(code := old(rows)[key].record.code), false)]
                      else old(rows)
    {
      affected := 0;
      if key in rows && !rows[key].deleted && rows[key].record.version == expected {
        rows := rows[key := Row(item.(code := rows[key].record.code), false)];
        affected := 1;
      }
    }

    method AppendAudit(actor: string, requestId: string, action: Action, key: Key,
                       before: AuditState, after: AuditState, detail: string)
      modifies this`audits
      ensures audits == old(audits) + [Audit(if actor == "" then "system" else actor,
                                             if requestId == "" then "untracked" else requestId,
                                             action, key, before, after, detail)]
    {
      var actor', requestId' := actor, requestId;
      if actor' == "" {
        actor' := "system";
      }
      if requestId' == "" {
        requestId' := "untracked";
      }
      audits := audits + [Audit(actor', requestId', action, key, before, after, detail)];
    }

    method CreateVersion(item: Record, who: Caller) returns (r: Result<Key>)
      modifies this
      ensures match Transactions.CreateVersion(old(Contents()), item, who)
              case Ok(db) => Contents() == db && r == Ok(NextKey(old(Contents()), item.Kind()))
              case Err(error) => Contents() == old(Contents()) && r == Err(error)
    {
      if CodeTaken(rows, item.Kind(), item.code) {
        return Err(DuplicateCode);
      }
      var key := Key(item.Kind(), nextId);
      nextId := nextId + 1;
      rows := rows[key := Row(item, false)];
      revisions := revisions + [NewRevision(key, item, who, CreateAction, CreateReason(item.Kind()))];
      AppendAudit(who.actor, who.requestId, CreateAction, key, Blank, In(item.status), CreateDetail(item.Kind()));
      r := Ok(key);
    }

    method UpdateVersion(key: Key, expected: nat, item: Record, who: Caller,
                         action: Action, before: Status, reason: string) returns (r: Result<()>)
      modifies this
      ensures match Transactions.UpdateVersion(old(Contents()), key, expected, item, who, action, before, reason)
              case Ok(db) => Contents() == db && r == Ok(())
              case Err(error) => Contents() == old(Contents()) && r == Err(error)
    {
      var affected := OptimisticUpdate(key, expected, item);
      if affected == 0 {
        return Err(Conflict);
      }
      revisions := revisions + [NewRevision(key, item, who, action, reason)];
      AppendAudit(who.actor, who.requestId, action, key, In(before), In(item.status), reason);
      r := Ok(());
    }

    method Delete(key: Key) returns (r: Result<()>)
      modifies this`rows
      ensures match SoftDelete(old(Contents()), key)
              case Ok(db) => Contents() == db && r == Ok(())
              case Err(error) => Contents() == old(Contents()) && r == Err(error)
    {
      if key !in rows || rows[key].deleted {
        return Err(NotFound);
      }
      rows := rows[key := Row(rows[key].record, true)];
      r := Ok(());
    }
  }
}
