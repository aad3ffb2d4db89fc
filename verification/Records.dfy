/** The entities of backend/internal/model and one database snapshot of the two versioned
    aggregates. Certificates and release authorizations share this module: they differ in
    their sign-off fields, their graph and a few constant texts. */
module Records {
  import opened Statuses
  import opened Access

  datatype Error =
    | NotFound | Conflict | Locked | InvalidTransition | InvalidInput
    | Forbidden | SeparationOfDuty | DuplicateCode | Unavailable

  datatype Result<+T> = Ok(value: T) | Err(error: Error)

  datatype Kind = Certificate | Authorization

  /** A table and a primary key in it. */
  datatype Key = Key(kind: Kind, id: nat)

  /** Business fields, already trimmed. `rest` carries the fields that no rule reads. */
  datatype Fields = Fields(name: string, facility: string, owner: string, evidence: string, rest: string)

  datatype Signoff =
    | Prepared(preparedBy: string, verifiedBy: string)
    | Dual(submittedBy: string, reviewedBy: string, reviewReason: string)

  datatype Record = Record(code: string, fields: Fields, status: Status, version: nat, signoff: Signoff) {
    function Kind(): Kind {
      if signoff.Prepared? then Certificate else Authorization
    }
  }

  /** A row keeps its place after a soft delete. */
  datatype Row = Row(record: Record, deleted: bool)

  datatype Action = SeedAction | CreateAction | UpdateAction | TransitionAction | DeleteAction

  datatype Revision = Revision(key: Key, version: nat, status: Status, evidence: string,
                               actor: string, requestId: string, action: Action, reason: string)

  /** The before and after columns of an audit row: empty, a status, or "deleted". */
  datatype AuditState = Blank | In(status: Status) | Gone

  datatype Audit = Audit(actor: string, requestId: string, action: Action, key: Key,
                         before: AuditState, after: AuditState, detail: string)

  /** The tables, as committed at one instant. Revisions and audits are in insertion order. */
  datatype Db = Db(rows: map<Key, Row>, revisions: seq<Revision>, audits: seq<Audit>, nextId: nat)

  /** The authenticated caller of a request. */
  datatype Caller = Caller(actor: string, role: Role, requestId: string)

  datatype Command =
    | Create(kind: Kind, code: string, fields: Fields, who: Caller)
    | Update(key: Key, expected: nat, fields: Fields, who: Caller)
    | Transition(key: Key, expected: nat, target: Status, reason: string, who: Caller)
    | Delete(key: Key, who: Caller)
    | Fetch(key: Key, who: Caller)

  predicate Edits(cmd: Command) {
    cmd.Update? || cmd.Transition?
  }

  function GraphOf(kind: Kind): Graph {
    match kind
    case Certificate => CERTIFICATE_RECORD_TRANSITIONS
    case Authorization => RELEASE_AUTHORIZATION_TRANSITIONS
  }

  predicate Live(db: Db, key: Key) {
    key in db.rows && !db.rows[key].deleted
  }

  predicate Marked(db: Db, key: Key) {
    key in db.rows && db.rows[key].deleted
  }

  /** The revisions of one record, in insertion order. */
  function LogOf(revisions: seq<Revision>, key: Key): seq<Revision> {
    if revisions == [] then []
    else
      var rest := LogOf(revisions[..|revisions| - 1], key);
      var last := revisions[|revisions| - 1];
      if last.key == key then rest + [last] else rest
  }

  /** The audit rows of one record that a transaction wrote, in insertion order. */
  function TrailOf(audits: seq<Audit>, key: Key): seq<Audit> {
    if audits == [] then []
    else
      var rest := TrailOf(audits[..|audits| - 1], key);
      var last := audits[|audits| - 1];
      if last.key == key && !last.action.DeleteAction? then rest + [last] else rest
  }

  lemma LogOfAppend(revisions: seq<Revision>, revision: Revision, key: Key)
    ensures LogOf(revisions + [revision], key)
         == if revision.key == key then LogOf(revisions, key) + [revision] else LogOf(revisions, key)
  {
    assert (revisions + [revision])[..|revisions|] == revisions;
  }

  lemma TrailOfAppend(audits: seq<Audit>, audit: Audit, key: Key)
    ensures TrailOf(audits + [audit], key)
         == if audit.key == key && !audit.action.DeleteAction? then TrailOf(audits, key) + [audit]
            else TrailOf(audits, key)
  {
    assert (audits + [audit])[..|audits|] == audits;
  }

  /** A number above each of finitely many. */
  lemma Above(ids: set<nat>) returns (first: nat)
    ensures forall q :: q in ids ==> q < first
    decreases ids
  {
    if ids == {} {
      first := 0;
    } else {
      var q :| q in ids;
      var rest := Above(ids - {q});
      first := if q < rest then rest else q + 1;
      forall p | p in ids ensures p < first {
        assert p == q || p in ids - {q};
      }
    }
  }
}
