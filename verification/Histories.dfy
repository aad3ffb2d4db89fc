/** How one record's story - its row, its revision log, its audit trail - can move on in one
    atomic operation, and so in one step of an interleaved run. */
module Histories {
  import opened Records
  import opened Transactions
  import opened Services
  import opened Statuses
  import opened Protocol
  import opened Invariants
  import opened Refinement

  datatype Story = Story(row: Row, log: seq<Revision>, trail: seq<Audit>) {
    function rec(): Record { row.record }
  }

  function StoryOf(db: Db, key: Key): Story
    requires key in db.rows
  {
    Story(db.rows[key], LogOf(db.revisions, key), TrailOf(db.audits, key))
  }

  /** One committed edit: decided on the present record, at its present version, by an
      admitted caller, with one revision and one audit of its own. */
  predicate Edited(key: Key, a: Story, b: Story, cmd: Command) {
    && Edits(cmd) && cmd.key == key && Gate(cmd)
    && !a.row.deleted && cmd.expected == a.rec().version
    && Decide(cmd, a.rec()).Ok?
    && var item := Decide(cmd, a.rec()).value;
    b == Story(Row(item, false),
               a.log + [NewRevision(key, item, cmd.who, ActionOf(cmd), ReasonOf(cmd))],
               a.trail + [NewAudit(cmd.who, ActionOf(cmd), key, In(a.rec().status), In(item.status), ReasonOf(cmd))])
  }

  predicate Born(key: Key, b: Story, cmd: Command) {
    && cmd.Create? && cmd.kind == key.kind && Gate(cmd) && ValidBusinessFields(cmd.code, cmd.fields)
    && var item := NewRecord(cmd.kind, cmd.code, cmd.fields, cmd.who.actor);
    b == Story(Row(item, false),
               [NewRevision(key, item, cmd.who, CreateAction, CreateReason(cmd.kind))],
               [NewAudit(cmd.who, CreateAction, key, Blank, In(Draft), CreateDetail(cmd.kind))])
  }

  /** Audits are about records that exist. */
  ghost predicate NoStrayAudits(db: Db) {
    forall key :: key !in db.rows ==> TrailOf(db.audits, key) == []
  }

  /** What an accepted operation does to one record, its log and its trail. */
  predicate Passage(db: Db, op: Op, db': Db, key: Key) {
    if op.Exec? && op.key == key then
      && key in db'.rows
      && (if op.cmd.Create? then key !in db.rows && Born(key, StoryOf(db', key), op.cmd)
          else key in db.rows && Edited(key, StoryOf(db, key), StoryOf(db', key), op.cmd))
    else if op.Remove? && op.key == key then
      && key in db.rows && key in db'.rows
      && !db.rows[key].deleted
      && StoryOf(db', key) == StoryOf(db, key).(row := Row(db.rows[key].record, true))
    else Untouched(db, db', key)
  }

  predicate Untouched(db: Db, db': Db, key: Key) {
    if key in db.rows then key in db'.rows && StoryOf(db', key) == StoryOf(db, key)
    else key !in db'.rows && TrailOf(db'.audits, key) == TrailOf(db.audits, key)
  }

  /** The log and the trail of every record after one more revision and one more audit. */
  lemma BothAppend(db: Db, db': Db, revision: Revision, audit: Audit, key: Key)
    requires db'.revisions == db.revisions + [revision] && db'.audits == db.audits + [audit]
    requires revision.key == audit.key && !audit.action.DeleteAction?
    ensures LogOf(db'.revisions, key)
         == LogOf(db.revisions, key) + (if revision.key == key then [revision] else [])
    ensures TrailOf(db'.audits, key) == TrailOf(db.audits, key) + (if revision.key == key then [audit] else [])
  {
    LogOfAppend(db.revisions, revision, key);
    TrailOfAppend(db.audits, audit, key);
  }

  lemma CreatePassage(db: Db, op: Op, key: Key)
    requires op.Exec? && op.cmd.Create?
    requires Shaped(db) && NoStrayAudits(db) && Apply(db, op).Ok?
    ensures Passage(db, op, Apply(db, op).value, key)
  {
    hide LogOf, TrailOf;
    var cmd, slot := op.cmd, op.key;
    var item := NewRecord(cmd.kind, cmd.code, cmd.fields, cmd.who.actor);
    BothAppend(db, Apply(db, op).value,
               NewRevision(slot, item, cmd.who, CreateAction, CreateReason(cmd.kind)),
               NewAudit(cmd.who, CreateAction, slot, Blank, In(Draft), CreateDetail(cmd.kind)), key);
    assert ShapedAt(db, slot);
    if key == slot {
      assert TrailOf(db.audits, key) == [] && LogOf(db.revisions, key) == [];
    }
  }

  lemma EditPassage(db: Db, op: Op, key: Key)
    requires op.Exec? && Edits(op.cmd) && Apply(db, op).Ok?
    ensures Passage(db, op, Apply(db, op).value, key)
  {
    var cmd := op.cmd;
    var cur := db.rows[cmd.key].record;
    var item := Decide(cmd, cur).value;
    DecideFrame(cmd, cur);
    LogOfAppend(db.revisions, NewRevision(cmd.key, item, cmd.who, ActionOf(cmd), ReasonOf(cmd)), key);
    TrailOfAppend(db.audits,
                  NewAudit(cmd.who, ActionOf(cmd), cmd.key, In(cur.status), In(item.status), ReasonOf(cmd)), key);
    if key == cmd.key {
      assert item.(code := cur.code) == item;
    }
  }

  lemma OpPassage(db: Db, op: Op, key: Key)
    requires Shaped(db) && NoStrayAudits(db) && Apply(db, op).Ok?
    ensures Passage(db, op, Apply(db, op).value, key)
  {
    match op
    case Exec(_, cmd, _) =>
      if cmd.Create? {
        CreatePassage(db, op, key);
      } else {
        EditPassage(db, op, key);
      }
    case Remove(_, _) =>
    case Note(_, cmd, before) =>
      TrailOfAppend(db.audits,
                    NewAudit(cmd.who, DeleteAction, cmd.key, In(before), Gone, DeleteDetail(cmd.key.kind)), key);
  }

  /** An accepted operation keeps the shape of the tables. */
  lemma OpOk(db: Db, op: Op)
    requires Shaped(db) && Apply(db, op).Ok?
    ensures Shaped(Apply(db, op).value) && Later(db, Apply(db, op).value)
  {
    match op
    case Exec(_, cmd, _) =>
      if cmd.Create? {
        CreateKeepsShape(db, NewRecord(cmd.kind, cmd.code, cmd.fields, cmd.who.actor), cmd.who);
      } else {
        var cur := db.rows[cmd.key].record;
        DecideFrame(cmd, cur);
        assert ShapedAt(db, cmd.key);
        UpdateKeepsShape(db, cmd.key, cmd.expected, Decide(cmd, cur).value, cmd.who, ActionOf(cmd), cur.status,
                         ReasonOf(cmd));
      }
    case Remove(_, key) => SoftDeleteKeepsShape(db, key);
    case Note(_, cmd, before) => NoteKeepsShape(db, cmd, before);
  }

  /** A step of an interleaved run commits nothing, or one operation of the sequential history. */
  lemma StepPassage(s: State, e: Event, key: Key)
    requires Inv(s) && AllKnown(s) && NoStrayAudits(s.db)
    ensures OpsOf(s, e) == [] ==> Step(s, e).db == s.db
    ensures OpsOf(s, e) != [] ==> Passage(s.db, OpsOf(s, e)[0], Step(s, e).db, key)
  {
    StepRefines(s, e);
    var ops := OpsOf(s, e);
    if ops != [] {
      PerformOne(s.db, ops[0]);
      assert ops == [ops[0]];
      OpPassage(s.db, ops[0], key);
    }
  }
}
