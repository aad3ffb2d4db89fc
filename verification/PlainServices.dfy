/** The service objects of parts and inspections. The two differ only in their graph and
    initial status, so one class stands for both. */
module PlainServices {
  import opened Records
  import opened Statuses
  import opened Services
  import opened Access
  import opened PlainRecords

  /** One step of a request that runs alone, when its audit statement succeeds or fails. */
  function Onward(kind: PlainKind, r: nat, auditStored: bool, at: (Tables, PlainPhase)): (Tables, PlainPhase) {
    if at.1.Committed? && !auditStored then (at.0, AuditLost(at.1))
    else Continue(kind, at.0, r, at.1)
  }

  /** A request that has been admitted by its route and runs alone, to its end. */
  function AloneFrom(kind: PlainKind, t: Tables, r: nat, auditStored: bool, phase: PlainPhase): (Tables, PlainPhase) {
    var first := Onward(kind, r, auditStored, (t, phase));
    var second := Onward(kind, r, auditStored, first);
    var third := Onward(kind, r, auditStored, second);
    Onward(kind, r, auditStored, third)
  }

  /** What a call leaves behind: the tables and the answer of the request's steps. */
  predicate RanAlone(kind: PlainKind, before: Tables, after: Tables, r: nat, auditStored: bool, cmd: PlainCommand,
                     outcome: Result<PlainReply>)
    requires Guarded(cmd)
  {
    var end := AloneFrom(kind, before, r, auditStored, Arrival(kind, before, cmd));
    after == end.0 && end.1.Ended? && end.1.outcome == outcome
  }

  function Answer(read: Result<PlainRecord>): Result<PlainReply> {
    match read
    case Ok(item) => Ok(Item(item))
    case Err(error) => Err(error)
  }

  class PlainService {
    const kind: PlainKind
    var rows: map<nat, PlainRow>
    var nextId: nat
    var audits: seq<Entry>

    function Contents(): Tables
      reads this
    {
      Tables(rows, nextId, audits)
    }

    constructor (kind: PlainKind, tables: Tables)
      ensures this.kind == kind && Contents() == tables
    {
      this.kind := kind;
      rows, nextId, audits := tables.rows, tables.nextId, tables.audits;
    }

    method OptimisticUpdate(id: nat, expected: nat, item: PlainRecord) returns (affected: nat)
      modifies this`rows
      ensures affected == if old(LiveRow(Contents(), id) && rows[id].record.version == expected) then 1 else 0
      ensures rows == if affected == 1 then old(rows)[id := PlainRow(item.(code := old(rows)[id].record.code), false)]
                      else old(rows)
    {
      affected := 0;
      if id in rows && !rows[id].deleted && rows[id].record.version == expected {
        rows := rows[id := PlainRow(item.(code := rows[id].record.code), false)];
        affected := 1;
      }
    }

    /** An audit insert of its own; `stored` is what the database does with it. */
    method Audit(r: nat, who: Caller, action: Action, id: nat, before: AuditState, after: AuditState, detail: string,
                 stored: bool) returns (ok: bool)
      modifies this`audits
      ensures ok == stored
      ensures audits == old(audits) + (if !stored then [] else [
        Entry(r, if who.actor == "" then "system" else who.actor,
              if who.requestId == "" then "untracked" else who.requestId,
              action, id, before, after, detail)])
    {
      var actor, requestId := who.actor, who.requestId;
      if actor == "" {
        actor := "system";
      }
      if requestId == "" {
        requestId := "untracked";
      }
      if stored {
        audits := audits + [Entry(r, actor, requestId, action, id, before, after, detail)];
      }
      ok := stored;
    }

    method Get(id: nat) returns (found: Result<PlainRecord>)
      ensures found == if LiveRow(Contents(), id) then Ok(rows[id].record) else Err(NotFound)
    {
      if id !in rows || rows[id].deleted {
        return Err(NotFound);
      }
      found := Ok(rows[id].record);
    }

    method Create(r: nat, code: string, fields: Fields, who: Caller, auditStored: bool)
        returns (outcome: Result<PlainReply>)
      requires Guarded(Add(code, fields, who))
      modifies this
      ensures RanAlone(kind, old(Contents()), Contents(), r, auditStored, Add(code, fields, who), outcome)
    {
      if !ValidBusinessFields(code, fields) {
        return Err(InvalidInput);
      }
      var item := PlainRecord(code, fields, InitialStatus(kind), 1);
      if exists id :: id in rows && rows[id].record.code == code {
        return Err(DuplicateCode);
      }
      var id := nextId;
      rows := rows[id := PlainRow(item, false)];
      nextId := nextId + 1;
      var _ := Audit(r, who, CreateAction, id, Blank, In(item.status), "created " + EntityText(kind), auditStored);
      outcome := Ok(Item(item));
    }

    method Update(r: nat, id: nat, expected: nat, fields: Fields, who: Caller, auditStored: bool)
        returns (outcome: Result<PlainReply>)
      requires Guarded(Edit(id, expected, fields, who))
      modifies this
      ensures RanAlone(kind, old(Contents()), Contents(), r, auditStored, Edit(id, expected, fields, who), outcome)
    {
      hide EntityText, RequireMinimumRole;
      var read := Get(id);
      if read.Err? {
        return Err(read.error);
      }
      var current := read.value;
      if !ValidBusinessFields(current.code, fields) {
        return Err(InvalidInput);
      }
      current := current.(fields := fields);
      current := current.(version := expected + 1);
      var affected := OptimisticUpdate(id, expected, current);
      if affected == 0 {
        return Err(Conflict);
      }
      var _ := Audit(r, who, UpdateAction, id, In(current.status), In(current.status), "updated business fields",
                     auditStored);
      read := Get(id);
      outcome := Answer(read);
    }

    method Transition(r: nat, id: nat, expected: nat, target: Status, reason: string, who: Caller, auditStored: bool)
        returns (outcome: Result<PlainReply>)
      requires Guarded(Move(id, expected, target, reason, who))
      modifies this
      ensures RanAlone(kind, old(Contents()), Contents(), r, auditStored,
                       Move(id, expected, target, reason, who), outcome)
    {
      hide CanTransition, EntityText, RequireMinimumRole;
      var read := Get(id);
      if read.Err? {
        return Err(read.error);
      }
      var current := read.value;
      if !CanTransition(PlainGraph(kind), current.status, target) {
        return Err(InvalidTransition);
      }
      var before := current.status;
      current := current.(status := target);
      current := current.(version := expected + 1);
      var affected := OptimisticUpdate(id, expected, current);
      if affected == 0 {
        return Err(Conflict);
      }
      var stored := Audit(r, who, TransitionAction, id, In(before), In(target), reason, auditStored);
      if !stored {
        return Err(Unavailable);
      }
      read := Get(id);
      outcome := Answer(read);
    }

    method Delete(r: nat, id: nat, who: Caller, auditStored: bool) returns (outcome: Result<PlainReply>)
      requires Guarded(Drop(id, who))
      modifies this
      ensures RanAlone(kind, old(Contents()), Contents(), r, auditStored, Drop(id, who), outcome)
    {
      var read := Get(id);
      if read.Err? {
        return Err(read.error);
      }
      var current := read.value;
      rows := rows[id := PlainRow(rows[id].record, true)];
      var stored := Audit(r, who, DeleteAction, id, In(current.status), Gone, "soft deleted " + EntityText(kind),
                          auditStored);
      outcome := if stored then Ok(Empty) else Err(Unavailable);
    }
  }
}
