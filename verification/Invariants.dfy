/** What holds in every state of every run, whatever versions the clients send. */
module Invariants {
  import opened Records
  import opened Transactions
  import opened Services
  import opened Statuses
  import opened Protocol

  /** The revision log at a record's version tells the same version, status and evidence. */
  predicate AgreesAt(log: seq<Revision>, item: Record) {
    && 1 <= item.version <= |log|
    && log[item.version - 1].version == item.version
    && log[item.version - 1].status == item.status
    && log[item.version - 1].evidence == item.fields.evidence
  }

  /** Versions 1, 2, 3, ... once each, in order. */
  predicate Numbered(log: seq<Revision>) {
    forall i :: 0 <= i < |log| ==> log[i].version == i + 1
  }

  predicate ShapedRecord(key: Key, rec: Record, log: seq<Revision>) {
    && rec.Kind() == key.kind
    && rec.code != ""
    && |log| == rec.version
    && Numbered(log)
    && AgreesAt(log, rec)
  }

  predicate ShapedAt(db: Db, key: Key) {
    var log := LogOf(db.revisions, key);
    if key in db.rows then key.id < db.nextId && ShapedRecord(key, db.rows[key].record, log)
    else log == []
  }

  ghost predicate Shaped(db: Db) {
    forall key :: ShapedAt(db, key)
  }

  /** How one record may differ between an instant and a later one: its log only grows at the
      end, its version never falls, an equal version means an equal record, and a
      soft-deleted record and its log never change again. */
  predicate LaterAt(db: Db, db': Db, key: Key) {
    && LogOf(db.revisions, key) <= LogOf(db'.revisions, key)
    && (key in db.rows ==>
          && key in db'.rows
          && db.rows[key].record.version <= db'.rows[key].record.version
          && db.rows[key].record.code == db'.rows[key].record.code
          && (db.rows[key].record.version == db'.rows[key].record.version ==>
                db.rows[key].record == db'.rows[key].record)
          && (db.rows[key].deleted ==>
                db'.rows[key] == db.rows[key] && LogOf(db'.revisions, key) == LogOf(db.revisions, key)))
  }

  ghost predicate Later(db: Db, db': Db) {
    forall key :: LaterAt(db, db', key)
  }

  /** A record that some query returned at this instant or before. */
  predicate Seen(db: Db, key: Key, item: Record) {
    && key in db.rows
    && item.version <= db.rows[key].record.version
    && item.code == db.rows[key].record.code
    && (item.version == db.rows[key].record.version ==> item == db.rows[key].record)
    && item.Kind() == key.kind
    && AgreesAt(LogOf(db.revisions, key), item)
  }

  /** A read put together from a row query and a later revision query. */
  predicate Coherent(db: Db, key: Key, view: View) {
    && Seen(db, key, view.item)
    && view.log <= LogOf(db.revisions, key)
    && AgreesAt(view.log, view.item)
    && Numbered(view.log)
  }

  /** The revision that a committed request left behind. */
  predicate OwnRevision(cmd: Command, key: Key, log: seq<Revision>)
    requires cmd.Create? || Edits(cmd)
  {
    var at := if cmd.Create? then 0 else cmd.expected;
    && at < |log|
    && log[at].version == at + 1
    && log[at].actor == cmd.who.actor
    && log[at].requestId == cmd.who.requestId
    && log[at].action == (if cmd.Create? then CreateAction else ActionOf(cmd))
    && (Edits(cmd) ==> log[at].reason == ReasonOf(cmd) && key == cmd.key)
  }

  /** What the answer to a request that succeeded says. */
  ghost predicate Answered(db: Db, cmd: Command, reply: Reply) {
    && (reply.NoContent? <==> cmd.Delete?)
    && (reply.Shown? && cmd.Fetch? ==> Coherent(db, cmd.key, reply.view))
    && (reply.Shown? && Edits(cmd) ==>
          && Coherent(db, cmd.key, reply.view)
          && reply.view.item.version >= cmd.expected + 1
          && OwnRevision(cmd, cmd.key, reply.view.log))
    && (reply.Shown? && cmd.Create? ==>
          exists key: Key ::
            key.kind == cmd.kind && Coherent(db, key, reply.view) && OwnRevision(cmd, key, reply.view.log))
  }

  ghost predicate PhaseOk(db: Db, phase: Phase) {
    && (!phase.Done? ==> Gate(phase.cmd))
    && match phase
       case Loading(cmd, item) => Seen(db, cmd.key, item)
       case Loaded(cmd, item, log) => Coherent(db, cmd.key, View(item, log))
       case Checked(cmd, before, item) => Seen(db, cmd.key, before) && Decide(cmd, before) == Ok(item)
       case Drafting(cmd, item) =>
         ValidBusinessFields(cmd.code, cmd.fields) && item == NewRecord(cmd.kind, cmd.code, cmd.fields, cmd.who.actor)
       case Deleting(cmd, before) => Seen(db, cmd.key, before) && before.status == Draft
       case Deleted(cmd, before) => Seen(db, cmd.key, before) && before.status == Draft && db.rows[cmd.key].deleted
       case Written(cmd, key) => CommittedAt(db, cmd, key)
       case Answering(cmd, key, item) =>
         && CommittedAt(db, cmd, key)
         && Seen(db, key, item)
         && (Edits(cmd) ==> item.version >= cmd.expected + 1)
       case Done(cmd, outcome) => outcome.Ok? ==> Answered(db, cmd, outcome.value)
  }

  predicate CommittedAt(db: Db, cmd: Command, key: Key)
    requires cmd.Create? || Edits(cmd)
  {
    && key in db.rows
    && (cmd.Create? ==> key.kind == cmd.kind)
    && OwnRevision(cmd, key, LogOf(db.revisions, key))
  }

  ghost predicate Inv(s: State) {
    && Shaped(s.db)
    && forall r :: r in s.requests ==> PhaseOk(s.db, s.requests[r])
  }

  // Later is a preorder that every kind of knowledge survives.

  lemma LaterReflexive(db: Db)
    ensures Later(db, db)
  {
    forall key ensures LaterAt(db, db, key) {
    }
  }

  lemma LaterTransitive(a: Db, b: Db, c: Db)
    requires Later(a, b) && Later(b, c)
    ensures Later(a, c)
  {
    forall key ensures LaterAt(a, c, key) {
      assert LaterAt(a, b, key) && LaterAt(b, c, key);
    }
  }

  lemma AgreesLater(log: seq<Revision>, log': seq<Revision>, item: Record)
    requires AgreesAt(log, item) && log <= log'
    ensures AgreesAt(log', item)
  {
    assert log'[item.version - 1] == log[item.version - 1];
  }

  lemma SeenLater(db: Db, db': Db, key: Key, item: Record)
    requires Seen(db, key, item) && Later(db, db')
    ensures Seen(db', key, item)
  {
    assert LaterAt(db, db', key);
    AgreesLater(LogOf(db.revisions, key), LogOf(db'.revisions, key), item);
  }

  lemma CoherentLater(db: Db, db': Db, key: Key, view: View)
    requires Coherent(db, key, view) && Later(db, db')
    ensures Coherent(db', key, view)
  {
    SeenLater(db, db', key, view.item);
    assert LaterAt(db, db', key);
  }

  lemma OwnRevisionLater(cmd: Command, key: Key, log: seq<Revision>, log': seq<Revision>)
    requires cmd.Create? || Edits(cmd)
    requires OwnRevision(cmd, key, log) && log <= log'
    ensures OwnRevision(cmd, key, log')
  {
    var at := if cmd.Create? then 0 else cmd.expected;
    assert log'[at] == log[at];
  }

  lemma AnsweredLater(db: Db, db': Db, cmd: Command, reply: Reply)
    requires Answered(db, cmd, reply) && Later(db, db')
    ensures Answered(db', cmd, reply)
  {
    if reply.Shown? {
      if cmd.Create? {
        var key: Key :| key.kind == cmd.kind && Coherent(db, key, reply.view) && OwnRevision(cmd, key, reply.view.log);
        CoherentLater(db, db', key, reply.view);
      } else {
        CoherentLater(db, db', cmd.key, reply.view);
      }
    }
  }

  lemma CommittedLater(db: Db, db': Db, cmd: Command, key: Key)
    requires cmd.Create? || Edits(cmd)
    requires CommittedAt(db, cmd, key) && Later(db, db')
    ensures CommittedAt(db', cmd, key)
  {
    assert LaterAt(db, db', key);
    OwnRevisionLater(cmd, key, LogOf(db.revisions, key), LogOf(db'.revisions, key));
  }

  lemma PhaseOkLater(db: Db, db': Db, phase: Phase)
    requires PhaseOk(db, phase) && Later(db, db')
    ensures PhaseOk(db', phase)
  {
    match phase
    case Loading(cmd, item) => SeenLater(db, db', cmd.key, item);
    case Loaded(cmd, item, log) => CoherentLater(db, db', cmd.key, View(item, log));
    case Checked(cmd, before, item) => SeenLater(db, db', cmd.key, before);
    case Drafting(_, _) =>
    case Deleting(cmd, before) => SeenLater(db, db', cmd.key, before);
    case Deleted(cmd, before) =>
      SeenLater(db, db', cmd.key, before);
      assert LaterAt(db, db', cmd.key);
    case Written(cmd, key) => CommittedLater(db, db', cmd, key);
    case Answering(cmd, key, item) =>
      CommittedLater(db, db', cmd, key);
      SeenLater(db, db', key, item);
    case Done(cmd, outcome) =>
      if outcome.Ok? {
        AnsweredLater(db, db', cmd, outcome.value);
      }
  }

  // The four transactions keep the shape of the tables and move to a later instant.

  /** A decision keeps the code and the table of the record and numbers it after the version
      the client sent. */
  lemma DecideFrame(cmd: Command, cur: Record)
    requires Edits(cmd) && Decide(cmd, cur).Ok?
    ensures Decide(cmd, cur).value.code == cur.code
    ensures Decide(cmd, cur).value.version == cmd.expected + 1
    ensures Decide(cmd, cur).value.Kind() == cur.Kind()
  {
  }

  lemma CreateKeepsShape(db: Db, item: Record, who: Caller)
    requires Shaped(db) && CreateVersion(db, item, who).Ok?
    requires item.version == 1 && item.code != ""
    ensures var db' := CreateVersion(db, item, who).value;
            Shaped(db') && Later(db, db') && NextKey(db, item.Kind()) !in db.rows
  {
    var db' := CreateVersion(db, item, who).value;
    var slot := NextKey(db, item.Kind());
    assert ShapedAt(db, slot);
    var revision := NewRevision(slot, item, who, CreateAction, CreateReason(item.Kind()));
    forall key ensures ShapedAt(db', key) && LaterAt(db, db', key) {
      LogOfAppend(db.revisions, revision, key);
      assert ShapedAt(db, key);
    }
  }

  lemma UpdateKeepsShape(db: Db, key: Key, expected: nat, item: Record, who: Caller,
                         action: Action, before: Status, reason: string)
    requires Shaped(db) && UpdateVersion(db, key, expected, item, who, action, before, reason).Ok?
    requires item.version == expected + 1 && item.Kind() == key.kind
    ensures var db' := UpdateVersion(db, key, expected, item, who, action, before, reason).value;
            Shaped(db') && Later(db, db')
  {
    var db' := UpdateVersion(db, key, expected, item, who, action, before, reason).value;
    var revision := NewRevision(key, item, who, action, reason);
    forall k ensures ShapedAt(db', k) && LaterAt(db, db', k) {
      LogOfAppend(db.revisions, revision, k);
      assert ShapedAt(db, k);
    }
  }

  lemma SoftDeleteKeepsShape(db: Db, key: Key)
    requires Shaped(db) && SoftDelete(db, key).Ok?
    ensures Shaped(SoftDelete(db, key).value) && Later(db, SoftDelete(db, key).value)
  {
    var db' := SoftDelete(db, key).value;
    forall k ensures ShapedAt(db', k) && LaterAt(db, db', k) {
      assert ShapedAt(db, k);
    }
  }

  lemma NoteKeepsShape(db: Db, cmd: Command, before: Status)
    requires Shaped(db) && cmd.Delete?
    ensures Shaped(NoteRemoval(db, cmd, before)) && Later(db, NoteRemoval(db, cmd, before))
  {
    var db' := NoteRemoval(db, cmd, before);
    forall k ensures ShapedAt(db', k) && LaterAt(db, db', k) {
      assert ShapedAt(db, k);
    }
  }

  /** The unique index on (record, version) never rejects the revision of a commit: the slot
      after the expected version is empty whenever the version guard holds. */
  lemma VersionSlotFree(db: Db, key: Key, expected: nat)
    requires Shaped(db) && Live(db, key) && db.rows[key].record.version == expected
    ensures forall i :: 0 <= i < |LogOf(db.revisions, key)| ==> LogOf(db.revisions, key)[i].version != expected + 1
  {
    assert ShapedAt(db, key);
  }
}
