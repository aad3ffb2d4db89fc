/** Any number of requests over one database, interleaved statement by statement. A request
    runs through the phases below; each `Next` event is one query, one transaction or one
    local decision of one request. */
module Protocol {
  import opened Records
  import opened Transactions
  import opened Services
  import opened Statuses
  import opened Access

  datatype Reply = Shown(view: View) | NoContent

  datatype PhaseShape =
    | Loading(cmd: Command, item: Record)                         // row query of the first Get done
    | Loaded(cmd: Command, item: Record, log: seq<Revision>)      // revision query done
    | Checked(cmd: Command, before: Record, item: Record)         // decision taken, commit pending
    | Drafting(cmd: Command, item: Record)                        // create: insert pending
    | Deleting(cmd: Command, before: Record)                      // delete: statement pending
    | Deleted(cmd: Command, before: Record)                       // row gone, audit pending
    | Written(cmd: Command, key: Key)                             // committed, final Get pending
    | Answering(cmd: Command, key: Key, item: Record)             // row query of the final Get done
    | Done(cmd: Command, outcome: Result<Reply>)

  /** Which commands reach which phase. */
  predicate WellTyped(phase: PhaseShape) {
    match phase
    case Loading(cmd, _) => !cmd.Create?
    case Loaded(cmd, _, _) => !cmd.Create?
    case Checked(cmd, _, _) => Edits(cmd)
    case Drafting(cmd, item) => cmd.Create? && item.Kind() == cmd.kind
    case Deleting(cmd, _) => cmd.Delete?
    case Deleted(cmd, _) => cmd.Delete?
    case Written(cmd, _) => cmd.Create? || Edits(cmd)
    case Answering(cmd, _, _) => cmd.Create? || Edits(cmd)
    case Done(_, _) => true
  }

  type Phase = phase: PhaseShape | WellTyped(phase)
    witness Done(Fetch(Key(Certificate, 0), Caller("", Viewer, "")), Err(NotFound))

  /** Requests are numbered by the model; client-chosen request identifiers may repeat. */
  datatype State = State(db: Db, requests: map<nat, Phase>)

  /** `Abort` is an infrastructure failure: a lost connection, a cancelled context. */
  datatype Event = Begin(r: nat, cmd: Command) | Next(r: nat) | Abort(r: nat)

  function Start(db: Db, cmd: Command): Phase {
    if !Gate(cmd) then Done(cmd, Err(Forbidden))
    else if cmd.Create? then
      if !ValidBusinessFields(cmd.code, cmd.fields) then Done(cmd, Err(InvalidInput))
      else Drafting(cmd, NewRecord(cmd.kind, cmd.code, cmd.fields, cmd.who.actor))
    else if Live(db, cmd.key) then Loading(cmd, db.rows[cmd.key].record)
    else Done(cmd, Err(NotFound))
  }

  function Judge(cmd: Command, item: Record, log: seq<Revision>): Phase
    requires !cmd.Create?
  {
    if cmd.Fetch? then Done(cmd, Ok(Shown(View(item, log))))
    else if cmd.Delete? then
      if item.status != Draft then Done(cmd, Err(Locked)) else Deleting(cmd, item)
    else
      match Decide(cmd, item)
      case Ok(prepared) => Checked(cmd, item, prepared)
      case Err(error) => Done(cmd, Err(error))
  }

  /** One step of one request: the new tables and the new phase. */
  function Advance(db: Db, phase: Phase): (Db, Phase) {
    match phase
    case Loading(cmd, item) => (db, Loaded(cmd, item, LogOf(db.revisions, cmd.key)))
    case Loaded(cmd, item, log) => (db, Judge(cmd, item, log))
    case Drafting(cmd, item) => (
      match CreateVersion(db, item, cmd.who)
      case Ok(after) => (after, Written(cmd, NextKey(db, item.Kind())))
      case Err(error) => (db, Done(cmd, Err(error))))
    case Checked(cmd, before, item) => (
      match Commit(db, cmd, before, item)
      case Ok(after) => (after, Written(cmd, cmd.key))
      case Err(error) => (db, Done(cmd, Err(error))))
    case Deleting(cmd, before) => (
      match SoftDelete(db, cmd.key)
      case Ok(after) => (after, Deleted(cmd, before))
      case Err(error) => (db, Done(cmd, Err(error))))
    case Deleted(cmd, before) => (NoteRemoval(db, cmd, before.status), Done(cmd, Ok(NoContent)))
    case Written(cmd, key) =>
      (db, if Live(db, key) then Answering(cmd, key, db.rows[key].record) else Done(cmd, Err(NotFound)))
    case Answering(cmd, key, item) => (db, Done(cmd, Ok(Shown(View(item, LogOf(db.revisions, key))))))
    case Done(_, _) => (db, phase)
  }

  function NoteRemoval(db: Db, cmd: Command, before: Status): Db
    requires cmd.Delete?
  {
    db.(audits := db.audits + [NewAudit(cmd.who, DeleteAction, cmd.key, In(before), Gone, DeleteDetail(cmd.key.kind))])
  }

  /** An event that its request is not ready for changes nothing. */
  function Step(s: State, e: Event): State {
    match e
    case Begin(r, cmd) =>
      if r in s.requests then s else s.(requests := s.requests[r := Start(s.db, cmd)])
    case Next(r) =>
      if r !in s.requests then s
      else
        var (db, phase) := Advance(s.db, s.requests[r]);
        State(db, s.requests[r := phase])
    case Abort(r) =>
      if r !in s.requests || s.requests[r].Done? then s
      else s.(requests := s.requests[r := Done(s.requests[r].cmd, Err(Unavailable))])
  }

  /** The state after a sequence of events. */
  function Run(s: State, es: seq<Event>): State {
    if es == [] then s else Step(Run(s, es[..|es| - 1]), es[|es| - 1])
  }

  /** Hypothesis on the client: the version it sends with an edit is one it has seen, a
      committed version of the record at the time the request reads it. A request that finds
      no live record ends there, whatever it sent. */
  ghost predicate Vouched(db: Db, cmd: Command) {
    Edits(cmd) && Live(db, cmd.key) ==>
      var log := LogOf(db.revisions, cmd.key);
      exists i :: 0 <= i < |log| && log[i].version == cmd.expected
  }

  /** Every edit in the run is vouched for when it begins. */
  ghost predicate Honest(s: State, es: seq<Event>) {
    es == [] ||
    (var init, e := es[..|es| - 1], es[|es| - 1];
     Honest(s, init) && (e.Begin? ==> Vouched(Run(s, init).db, e.cmd)))
  }

  /** Every request in the run comes from a named actor. */
  predicate Named(es: seq<Event>) {
    forall e :: e in es && e.Begin? ==> e.cmd.who.actor != ""
  }
}
