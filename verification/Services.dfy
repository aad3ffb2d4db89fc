/** The business rules of backend/internal/service/certificate_record.go and
    release_authorization.go: the decision a request takes on the record it has read, the
    whole request as one atomic action, and the two service objects. */
module Services {
  import opened Records
  import opened Transactions
  import opened Repositories
  import opened Statuses
  import opened Access

  predicate ValidBusinessFields(code: string, fields: Fields) {
    code != "" && fields.name != "" && fields.facility != "" && fields.owner != ""
  }

  /** The route's role gate, which runs before the service. */
  predicate Gate(cmd: Command) {
    match cmd
    case Create(_, _, _, who) => RequireMinimumRole(Operator, who.role)
    case Update(_, _, _, who) => RequireMinimumRole(Operator, who.role)
    case Transition(_, _, _, _, who) => RequireMinimumRole(Operator, who.role)
    case Delete(_, who) => who.role in {Admin}
    case Fetch(_, _) => true
  }

  /** The routes as they are registered: a minimum role for writes, a list of roles for deletes. */
  method Admit(cmd: Command) returns (ok: bool)
    ensures ok <==> Gate(cmd)
  {
    match cmd
    case Fetch(_, _) => ok := true;
    case Delete(_, who) =>
      var allowed := RequireRoles([Admin]);
      ok := who.role in allowed;
    case _ => ok := RequireMinimumRole(Operator, cmd.who.role);
  }

  function NewRecord(kind: Kind, code: string, fields: Fields, actor: string): Record {
    Record(code, fields, Draft, 1, if kind == Certificate then Prepared(actor, "") else Dual("", "", ""))
  }

  function DecideUpdate(cur: Record, expected: nat, fields: Fields, actor: string): Result<Record> {
    if cur.status != Draft then Err(Locked)
    else if !ValidBusinessFields(cur.code, fields) then Err(InvalidInput)
    else
      var signoff := if cur.signoff.Prepared? then Prepared(actor, "") else cur.signoff;
      Ok(Record(cur.code, fields, cur.status, expected + 1, signoff))
  }

  function DecideCertificate(cur: Record, expected: nat, target: Status, who: Caller): Result<Record>
    requires cur.signoff.Prepared?
  {
    if !CanTransition(CERTIFICATE_RECORD_TRANSITIONS, cur.status, target) then Err(InvalidTransition)
    else if !IsOperatorRole(who.role) then Err(Forbidden)
    else if target == Valid || target == Revoked then
      if !IsReviewerRole(who.role) then Err(Forbidden)
      else if who.actor == cur.signoff.preparedBy then Err(SeparationOfDuty)
      else Ok(cur.(status := target, version := expected + 1,
                   signoff := Prepared(cur.signoff.preparedBy, who.actor)))
    else Ok(cur.(status := target, version := expected + 1))
  }

  function DecideAuthorization(cur: Record, expected: nat, target: Status, reason: string, who: Caller): Result<Record>
    requires cur.signoff.Dual?
  {
    if !CanTransition(RELEASE_AUTHORIZATION_TRANSITIONS, cur.status, target) then Err(InvalidTransition)
    else if !IsOperatorRole(who.role) then Err(Forbidden)
    else if target == Review then
      Ok(cur.(status := target, version := expected + 1, signoff := Dual(who.actor, "", "")))
    else if target == Approved || target == Restricted || target == Revoked || target == Draft then
      if !IsReviewerRole(who.role) then Err(Forbidden)
      else if cur.signoff.submittedBy != "" && who.actor == cur.signoff.submittedBy then Err(SeparationOfDuty)
      else Ok(cur.(status := target, version := expected + 1,
                   signoff := Dual(cur.signoff.submittedBy, who.actor, reason)))
    else Ok(cur.(status := target, version := expected + 1))
  }

  /** The record that an update or a transition prepares from the record it has read. */
  function Decide(cmd: Command, cur: Record): Result<Record>
    requires Edits(cmd)
  {
    match cmd
    case Update(_, expected, fields, who) => DecideUpdate(cur, expected, fields, who.actor)
    case Transition(_, expected, target, reason, who) =>
      if cur.signoff.Prepared? then DecideCertificate(cur, expected, target, who)
      else DecideAuthorization(cur, expected, target, reason, who)
  }

  function UpdateReason(kind: Kind): string {
    if kind == Certificate then "draft certificate fields updated" else "draft authorization fields updated"
  }

  function ActionOf(cmd: Command): Action
    requires Edits(cmd)
  {
    if cmd.Update? then UpdateAction else TransitionAction
  }

  function ReasonOf(cmd: Command): string
    requires Edits(cmd)
  {
    if cmd.Update? then UpdateReason(cmd.key.kind) else cmd.reason
  }

  /** The transaction of a request that read `before` and prepared `item` from it. */
  function Commit(db: Db, cmd: Command, before: Record, item: Record): Result<Db>
    requires Edits(cmd)
  {
    UpdateVersion(db, cmd.key, cmd.expected, item, cmd.who, ActionOf(cmd), before.status, ReasonOf(cmd))
  }

  /** A create, update or transition request that runs alone, without its route gate. */
  function Serve(db: Db, cmd: Command): Result<Db>
    requires cmd.Create? || Edits(cmd)
  {
    if cmd.Create? then
      if !ValidBusinessFields(cmd.code, cmd.fields) then Err(InvalidInput)
      else CreateVersion(db, NewRecord(cmd.kind, cmd.code, cmd.fields, cmd.who.actor), cmd.who)
    else if !Live(db, cmd.key) then Err(NotFound)
    else
      match Decide(cmd, db.rows[cmd.key].record)
      case Err(error) => Err(error)
      case Ok(item) => Commit(db, cmd, db.rows[cmd.key].record, item)
  }

  /** The atomic specification of a create, update or transition request. */
  function Atomic(db: Db, cmd: Command): Result<Db>
    requires cmd.Create? || Edits(cmd)
  {
    if Gate(cmd) then Serve(db, cmd) else Err(Forbidden)
  }

  /** What a service call that ran alone leaves behind and answers. */
  ghost predicate Served(before: Db, after: Db, cmd: Command, key: Key, r: Result<View>)
    requires cmd.Create? || Edits(cmd)
  {
    match Serve(before, cmd)
    case Ok(db) => after == db && r == Read(db, key)
    case Err(error) => after == before && r == Err(error)
  }

  /** What a delete call that ran alone leaves behind; the audit insert is a statement of its
      own and may fail after the row is gone. */
  ghost predicate Removed(before: Db, after: Db, key: Key, who: Caller, auditStored: bool, r: Result<()>) {
    if !Live(before, key) then after == before && r == Err(NotFound)
    else if before.rows[key].record.status != Draft then after == before && r == Err(Locked)
    else
      && after.rows == before.rows[key := Row(before.rows[key].record, true)]
      && after.revisions == before.revisions
      && after.nextId == before.nextId
      && after.audits == before.audits
           + (if auditStored then [NewAudit(who, DeleteAction, key, In(Draft), Gone, DeleteDetail(key.kind))] else [])
      && r == if auditStored then Ok(()) else Err(Unavailable)
  }

  class AuthorizationService {
    const repository: Repository

    constructor (repository: Repository)
      ensures this.repository == repository
    {
      this.repository := repository;
    }

    method Create(code: string, fields: Fields, who: Caller) returns (r: Result<View>)
      modifies repository
      ensures Served(old(repository.Contents()), repository.Contents(),
                     Command.Create(Authorization, code, fields, who),
                     NextKey(old(repository.Contents()), Authorization), r)
    {
      if !ValidBusinessFields(code, fields) {
        return Err(InvalidInput);
      }
      var item := Record(code, fields, Draft, 1, Dual("", "", ""));
      var created := repository.CreateVersion(item, who);
      match created {
        case Err(error) => return Err(error);
        case Ok(key) => r := repository.Get(key);
      }
    }

    method Update(key: Key, expected: nat, fields: Fields, who: Caller) returns (r: Result<View>)
      requires key.kind == Authorization
      requires Live(repository.Contents(), key) ==> repository.rows[key].record.signoff.Dual?
      modifies repository
      ensures Served(old(repository.Contents()), repository.Contents(),
                     Command.Update(key, expected, fields, who), key, r)
    {
      var read := repository.Get(key);
      if read.Err? {
        return read;
      }
      var current := read.value.item;
      if current.status != Draft {
        return Err(Locked);
      }
      if !ValidBusinessFields(current.code, fields) {
        return Err(InvalidInput);
      }
      var before := current.status;
      current := current.(fields := fields);
      current := current.(version := expected + 1);
      var committed := repository.UpdateVersion(key, expected, current, who, UpdateAction, before,
                                                "draft authorization fields updated");
      if committed.Err? {
        return Err(committed.error);
      }
      r := repository.Get(key);
    }

    method Transition(key: Key, expected: nat, target: Status, reason: string, who: Caller) returns (r: Result<View>)
      requires key.kind == Authorization
      requires Live(repository.Contents(), key) ==> repository.rows[key].record.signoff.Dual?
      modifies repository
      ensures Served(old(repository.Contents()), repository.Contents(),
                     Command.Transition(key, expected, target, reason, who), key, r)
    {
      var read := repository.Get(key);
      if read.Err? {
        return read;
      }
      var current := read.value.item;
      if !CanTransition(RELEASE_AUTHORIZATION_TRANSITIONS, current.status, target) {
        return Err(InvalidTransition);
      }
      if !IsOperatorRole(who.role) {
        return Err(Forbidden);
      }
      var signoff := current.signoff;
      if target == Review {
        signoff := signoff.(submittedBy := who.actor);
        signoff := signoff.(reviewedBy := "");
        signoff := signoff.(reviewReason := "");
      }
      if target == Approved || target == Restricted || target == Revoked || target == Draft {
        if !IsReviewerRole(who.role) {
          return Err(Forbidden);
        }
        if signoff.submittedBy != "" && who.actor == signoff.submittedBy {
          return Err(SeparationOfDuty);
        }
        signoff := signoff.(reviewedBy := who.actor);
        signoff := signoff.(reviewReason := reason);
      }
      var before := current.status;
      current := current.(signoff := signoff);
      current := current.(status := target);
      current := current.(version := expected + 1);
      var committed := repository.UpdateVersion(key, expected, current, who, TransitionAction, before, reason);
      if committed.Err? {
        return Err(committed.error);
      }
      r := repository.Get(key);
    }

    method Delete(key: Key, who: Caller, auditStored: bool) returns (r: Result<()>)
      modifies repository
      ensures Removed(old(repository.Contents()), repository.Contents(), key, who, auditStored, r)
    {
      r := RemoveDraft(repository, key, who, auditStored);
    }
  }

  class CertificateService {
    const repository: Repository

    constructor (repository: Repository)
      ensures this.repository == repository
    {
      this.repository := repository;
    }

    method Create(code: string, fields: Fields, who: Caller) returns (r: Result<View>)
      modifies repository
      ensures Served(old(repository.Contents()), repository.Contents(),
                     Command.Create(Certificate, code, fields, who),
                     NextKey(old(repository.Contents()), Certificate), r)
    {
      if !ValidBusinessFields(code, fields) {
        return Err(InvalidInput);
      }
      var item := Record(code, fields, Draft, 1, Prepared(who.actor, ""));
      var created := repository.CreateVersion(item, who);
      match created {
        case Err(error) => return Err(error);
        case Ok(key) => r := repository.Get(key);
      }
    }

    method Update(key: Key, expected: nat, fields: Fields, who: Caller) returns (r: Result<View>)
      requires key.kind == Certificate
      requires Live(repository.Contents(), key) ==> repository.rows[key].record.signoff.Prepared?
      modifies repository
      ensures Served(old(repository.Contents()), repository.Contents(),
                     Command.Update(key, expected, fields, who), key, r)
    {
      var read := repository.Get(key);
      if read.Err? {
        return read;
      }
      var current := read.value.item;
      if current.status != Draft {
        return Err(Locked);
      }
      if !ValidBusinessFields(current.code, fields) {
        return Err(InvalidInput);
      }
      var before := current.status;
      current := current.(fields := fields);
      current := current.(signoff := current.signoff.(preparedBy := who.actor));
      current := current.(signoff := current.signoff.(verifiedBy := ""));
      current := current.(version := expected + 1);
      var committed := repository.UpdateVersion(key, expected, current, who, UpdateAction, before,
                                                "draft certificate fields updated");
      if committed.Err? {
        return Err(committed.error);
      }
      r := repository.Get(key);
    }

    method Transition(key: Key, expected: nat, target: Status, reason: string, who: Caller) returns (r: Result<View>)
      requires key.kind == Certificate
      requires Live(repository.Contents(), key) ==> repository.rows[key].record.signoff.Prepared?
      modifies repository
      ensures Served(old(repository.Contents()), repository.Contents(),
                     Command.Transition(key, expected, target, reason, who), key, r)
    {
      var read := repository.Get(key);
      if read.Err? {
        return read;
      }
      var current := read.value.item;
      if !CanTransition(CERTIFICATE_RECORD_TRANSITIONS, current.status, target) {
        return Err(InvalidTransition);
      }
      if !IsOperatorRole(who.role) {
        return Err(Forbidden);
      }
      if target == Valid || target == Revoked {
        if !IsReviewerRole(who.role) {
          return Err(Forbidden);
        }
        if who.actor == current.signoff.preparedBy {
          return Err(SeparationOfDuty);
        }
        current := current.(signoff := current.signoff.(verifiedBy := who.actor));
      }
      var before := current.status;
      current := current.(status := target);
      current := current.(version := expected + 1);
      var committed := repository.UpdateVersion(key, expected, current, who, TransitionAction, before, reason);
      if committed.Err? {
        return Err(committed.error);
      }
      r := repository.Get(key);
    }

    method Delete(key: Key, who: Caller, auditStored: bool) returns (r: Result<()>)
      modifies repository
      ensures Removed(old(repository.Contents()), repository.Contents(), key, who, auditStored, r)
    {
      r := RemoveDraft(repository, key, who, auditStored);
    }
  }

  /** The delete call of both services. */
  method RemoveDraft(repository: Repository, key: Key, who: Caller, auditStored: bool) returns (r: Result<()>)
    modifies repository
    ensures Removed(old(repository.Contents()), repository.Contents(), key, who, auditStored, r)
  {
    var read := repository.Get(key);
    if read.Err? {
      return Err(read.error);
    }
    var current := read.value.item;
    if current.status != Draft {
      return Err(Locked);
    }
    var removed := repository.Delete(key);
    if removed.Err? {
      return removed;
    }
    if !auditStored {
      return Err(Unavailable);
    }
    repository.AppendAudit(who.actor, who.requestId, DeleteAction, key, In(current.status), Gone,
                           DeleteDetail(key.kind));
    r := Ok(());
  }
}
