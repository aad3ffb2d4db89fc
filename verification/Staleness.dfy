/** When a commit that relies on an early read is safe among requests that each commit as if
    they ran atomically, which by the refinement is all that honest clients' requests do. A
    request that sends a version its read has not reached can be overtaken even by these. */
module Staleness {
  import opened Records
  import opened Services
  import opened Statuses
  import opened Access
  import opened Invariants
  import opened Runs
  import opened Refinement
  import opened Histories
  import opened Duties

  /** The transaction does what the whole request would do atomically at this instant: the
      same new tables, or no change. */
  predicate Faithful(db: Db, cmd: Command, before: Record, item: Record)
    requires Edits(cmd)
  {
    match Atomic(db, cmd)
    case Ok(after) => Commit(db, cmd, before, item) == Ok(after)
    case Err(_) => Commit(db, cmd, before, item).Err?
  }

  /** ... whatever sequential history the other requests amount to between the read and the
      transaction. */
  ghost predicate FaithfulAmongHonest(db: Db, cmd: Command, before: Record, item: Record)
    requires Edits(cmd)
  {
    forall ops :: Accepted(db, ops) ==> Faithful(Perform(db, ops), cmd, before, item)
  }

  /** What an operation may do to the row of an existing record. */
  lemma OpRow(db: Db, op: Op, key: Key)
    requires Shaped(db) && key in db.rows && Apply(db, op).Ok?
    ensures key in Apply(db, op).value.rows
    ensures var row, row' := db.rows[key], Apply(db, op).value.rows[key];
            if op.Exec? && op.key == key then
              Edits(op.cmd) && op.cmd.expected == row.record.version
              && Decide(op.cmd, row.record) == Ok(row'.record) && !row'.deleted
            else row'.record == row.record
  {
    assert ShapedAt(db, key);
    if op.Exec? {
      if op.cmd.Create? {
        assert ShapedAt(db, op.key);
      } else {
        EditPassage(db, op, key);
        assert key == op.key ==>
                 StoryOf(db, key).row == db.rows[key]
                 && StoryOf(Apply(db, op).value, key).row == Apply(db, op).value.rows[key];
        assert key != op.key ==>
                 StoryOf(db, key).row == db.rows[key]
                 && StoryOf(Apply(db, op).value, key).row == Apply(db, op).value.rows[key];
      }
    }
  }

  lemma {:induction false} PerformOk(db: Db, ops: seq<Op>)
    requires Shaped(db) && Accepted(db, ops)
    ensures Shaped(Perform(db, ops)) && Later(db, Perform(db, ops))
  {
    if ops == [] {
      LaterReflexive(db);
    } else {
      var mid := Perform(db, ops[..|ops| - 1]);
      PerformOk(db, ops[..|ops| - 1]);
      OpOk(mid, ops[|ops| - 1]);
      LaterTransitive(db, mid, Perform(db, ops));
    }
  }

  lemma {:induction false} PerformSettled(db: Db, ops: seq<Op>, key: Key)
    requires Shaped(db) && Accepted(db, ops)
    requires key in db.rows && Settled(key.kind, db.rows[key].record.status)
    ensures key in Perform(db, ops).rows
    ensures var a, b := db.rows[key].record, Perform(db, ops).rows[key].record;
            && Settled(key.kind, b.status)
            && b.version + Headroom(b.status) <= a.version + Headroom(a.status)
  {
    if ops != [] {
      var init, op := ops[..|ops| - 1], ops[|ops| - 1];
      PerformSettled(db, init, key);
      PerformOk(db, init);
      var mid := Perform(db, init);
      assert ShapedAt(mid, key);
      OpRow(mid, op, key);
      if op.Exec? && op.key == key {
        DecideFrame(op.cmd, mid.rows[key].record);
        DecideSettled(op.cmd, mid.rows[key].record);
      }
    }
  }

  // Overtaking: histories that other, perfectly honest requests can commit meanwhile.

  const FILLER := Fields("fuel pump", "hangar 2", "line maintenance", "borescope report", "low risk")
  const MOTIVE := "reviewed against the evidence"

  function Editor(): Caller { Caller("editor", Operator, "edit-1") }

  /** Someone who neither prepared nor submitted the record. */
  function Outsider(rec: Record): Caller {
    var name := if rec.signoff.Prepared? then rec.signoff.preparedBy else rec.signoff.submittedBy;
    Caller(name + "x", Admin, "move-1")
  }

  function EditOp(db: Db, key: Key): Op
    requires key in db.rows
  {
    Exec(0, Update(key, db.rows[key].record.version, FILLER, Editor()), key)
  }

  function MoveOp(db: Db, key: Key, target: Status): Op
    requires key in db.rows
  {
    Exec(0, Transition(key, db.rows[key].record.version, target, MOTIVE, Outsider(db.rows[key].record)), key)
  }

  lemma EditOpOk(db: Db, key: Key)
    requires Shaped(db) && Live(db, key) && db.rows[key].record.status == Draft
    ensures Apply(db, EditOp(db, key)).Ok?
    ensures var db' := Apply(db, EditOp(db, key)).value;
            Shaped(db') && Live(db', key) && db'.rows[key].record.status == Draft
            && db'.rows[key].record.version == db.rows[key].record.version + 1
  {
    assert ShapedAt(db, key);
    OpOk(db, EditOp(db, key));
    OpRow(db, EditOp(db, key), key);
  }

  lemma MoveOpOk(db: Db, key: Key, target: Status)
    requires Shaped(db) && Live(db, key)
    requires CanTransition(GraphOf(key.kind), db.rows[key].record.status, target)
    ensures Apply(db, MoveOp(db, key, target)).Ok?
    ensures var db' := Apply(db, MoveOp(db, key, target)).value;
            Shaped(db') && Live(db', key) && db'.rows[key].record.status == target
            && db'.rows[key].record.version == db.rows[key].record.version + 1
  {
    assert ShapedAt(db, key);
    var rec := db.rows[key].record;
    assert |Outsider(rec).actor| > 0;
    if rec.signoff.Prepared? {
      assert |Outsider(rec).actor| != |rec.signoff.preparedBy|;
    } else {
      assert |Outsider(rec).actor| != |rec.signoff.submittedBy|;
    }
    OpOk(db, MoveOp(db, key, target));
    OpRow(db, MoveOp(db, key, target), key);
  }

  lemma NothingDone(db: Db)
    ensures Accepted(db, []) && Perform(db, []) == db
  {
  }

  lemma Snoc(db: Db, ops: seq<Op>, op: Op)
    requires Accepted(db, ops) && Apply(Perform(db, ops), op).Ok?
    ensures Accepted(db, ops + [op]) && Perform(db, ops + [op]) == Apply(Perform(db, ops), op).value
  {
    assert (ops + [op])[..|ops|] == ops;
  }

  /** A draft can be brought to any later version as a draft, by updates alone. */
  lemma {:induction false} EditTimes(db: Db, key: Key, n: nat) returns (ops: seq<Op>)
    requires Shaped(db) && Live(db, key) && db.rows[key].record.status == Draft
    ensures Accepted(db, ops)
    ensures var db' := Perform(db, ops);
            Shaped(db') && Live(db', key) && db'.rows[key].record.status == Draft
            && db'.rows[key].record.version == db.rows[key].record.version + n
  {
    if n == 0 {
      ops := [];
    } else {
      ops := EditTimes(db, key, n - 1);
      var mid := Perform(db, ops);
      EditOpOk(mid, key);
      Snoc(db, ops, EditOp(mid, key));
      ops := ops + [EditOp(mid, key)];
    }
  }

  lemma MoveAfter(db: Db, ops: seq<Op>, key: Key, target: Status) returns (ops': seq<Op>)
    requires Accepted(db, ops) && Shaped(Perform(db, ops)) && Live(Perform(db, ops), key)
    requires CanTransition(GraphOf(key.kind), Perform(db, ops).rows[key].record.status, target)
    ensures Accepted(db, ops')
    ensures var mid, db' := Perform(db, ops), Perform(db, ops');
            Shaped(db') && Live(db', key) && db'.rows[key].record.status == target
            && db'.rows[key].record.version == mid.rows[key].record.version + 1
  {
    MoveOpOk(Perform(db, ops), key, target);
    Snoc(db, ops, MoveOp(Perform(db, ops), key, target));
    ops' := ops + [MoveOp(Perform(db, ops), key, target)];
  }

  /** The version the client sent lies ahead of its read, at a version the record can reach. */
  predicate Overtakable(kind: Kind, read: Record, expected: nat) {
    read.version < expected && (Settled(kind, read.status) ==> expected <= read.version + Headroom(read.status))
  }

  /** A request prepared on one of these statuses is refused on the other. */
  lemma RefusedElsewhere(cmd: Command, rec: Record, rec': Record)
    requires Edits(cmd) && Decide(cmd, rec).Ok? && rec.Kind() == rec'.Kind()
    requires || (rec.status == Draft && rec'.status == if rec.Kind() == Certificate then Valid else Review)
             || (rec.status == Review && rec'.status == Draft)
             || (Settled(rec.Kind(), rec.status) && rec'.status == Revoked)
    ensures Decide(cmd, rec').Err?
  {
  }

  /** A record with a decision pending is a draft, in review or settled. */
  lemma DecidableStatus(cmd: Command, rec: Record)
    requires Edits(cmd) && Decide(cmd, rec).Ok?
    ensures || rec.status == Draft
            || (rec.status == Review && rec.Kind() == Authorization)
            || Settled(rec.Kind(), rec.status)
    ensures Settled(rec.Kind(), rec.status) ==> Headroom(rec.status) > 0
  {
  }

  /** Out of draft, a record refuses the request that was prepared on its draft. */
  lemma OvertakeDraft(db: Db, cmd: Command) returns (ops: seq<Op>)
    requires Edits(cmd) && Shaped(db) && Live(db, cmd.key) && Decide(cmd, db.rows[cmd.key].record).Ok?
    requires db.rows[cmd.key].record.status == Draft && db.rows[cmd.key].record.version < cmd.expected
    ensures Accepted(db, ops)
    ensures var db' := Perform(db, ops);
            && Live(db', cmd.key) && db'.rows[cmd.key].record.version == cmd.expected
            && Decide(cmd, db'.rows[cmd.key].record).Err?
  {
    hide Decide, Apply, Perform, LogOf;
    var key := cmd.key;
    assert ShapedAt(db, key);
    ops := EditTimes(db, key, cmd.expected - db.rows[key].record.version - 1);
    ops := MoveAfter(db, ops, key, if key.kind == Certificate then Valid else Review);
    assert ShapedAt(Perform(db, ops), key);
    RefusedElsewhere(cmd, db.rows[key].record, Perform(db, ops).rows[key].record);
  }

  /** Back in draft, an authorization refuses the request that was prepared on its review. */
  lemma OvertakeReview(db: Db, cmd: Command) returns (ops: seq<Op>)
    requires Edits(cmd) && Shaped(db) && Live(db, cmd.key) && Decide(cmd, db.rows[cmd.key].record).Ok?
    requires db.rows[cmd.key].record.status == Review && db.rows[cmd.key].record.version < cmd.expected
    ensures Accepted(db, ops)
    ensures var db' := Perform(db, ops);
            && Live(db', cmd.key) && db'.rows[cmd.key].record.version == cmd.expected
            && Decide(cmd, db'.rows[cmd.key].record).Err?
  {
    hide Decide, Apply, Perform, LogOf;
    var key := cmd.key;
    assert ShapedAt(db, key);
    DecidableStatus(cmd, db.rows[key].record);
    NothingDone(db);
    var back := MoveAfter(db, [], key, Draft);
    var mid := Perform(db, back);
    var more := EditTimes(mid, key, cmd.expected - db.rows[key].record.version - 1);
    ops := back + more;
    PerformConcat(db, back, more);
    assert ShapedAt(Perform(db, ops), key);
    RefusedElsewhere(cmd, db.rows[key].record, Perform(db, ops).rows[key].record);
  }

  /** Once revoked, a record refuses everything. */
  lemma OvertakeSettled(db: Db, cmd: Command) returns (ops: seq<Op>)
    requires Edits(cmd) && Shaped(db) && Live(db, cmd.key) && Decide(cmd, db.rows[cmd.key].record).Ok?
    requires Settled(cmd.key.kind, db.rows[cmd.key].record.status)
    requires Overtakable(cmd.key.kind, db.rows[cmd.key].record, cmd.expected)
    ensures Accepted(db, ops)
    ensures var db' := Perform(db, ops);
            && Live(db', cmd.key) && db'.rows[cmd.key].record.version == cmd.expected
            && Decide(cmd, db'.rows[cmd.key].record).Err?
  {
    hide Decide, Apply, Perform, LogOf;
    var key := cmd.key;
    assert ShapedAt(db, key);
    DecidableStatus(cmd, db.rows[key].record);
    NothingDone(db);
    ops := [];
    if cmd.expected == db.rows[key].record.version + 2 {
      ops := MoveAfter(db, ops, key, if key.kind == Certificate then Expired else Restricted);
    }
    ops := MoveAfter(db, ops, key, Revoked);
    assert ShapedAt(Perform(db, ops), key);
    RefusedElsewhere(cmd, db.rows[key].record, Perform(db, ops).rows[key].record);
  }

  lemma Overtake(db: Db, cmd: Command) returns (ops: seq<Op>)
    requires Edits(cmd) && Shaped(db) && Live(db, cmd.key) && Decide(cmd, db.rows[cmd.key].record).Ok?
    requires Overtakable(cmd.key.kind, db.rows[cmd.key].record, cmd.expected)
    ensures Accepted(db, ops)
    ensures var db' := Perform(db, ops);
            && Live(db', cmd.key) && db'.rows[cmd.key].record.version == cmd.expected
            && Decide(cmd, db'.rows[cmd.key].record).Err?
  {
    hide Decide, Apply, Perform, LogOf;
    assert ShapedAt(db, cmd.key);
    DecidableStatus(cmd, db.rows[cmd.key].record);
    var status := db.rows[cmd.key].record.status;
    if status == Draft {
      ops := OvertakeDraft(db, cmd);
    } else if status == Review {
      ops := OvertakeReview(db, cmd);
    } else {
      ops := OvertakeSettled(db, cmd);
    }
  }

  lemma FaithfulBehind(db: Db, cmd: Command, ops: seq<Op>)
    requires Edits(cmd) && Gate(cmd) && Shaped(db) && Live(db, cmd.key) && Decide(cmd, db.rows[cmd.key].record).Ok?
    requires cmd.expected <= db.rows[cmd.key].record.version && Accepted(db, ops)
    ensures Faithful(Perform(db, ops), cmd, db.rows[cmd.key].record, Decide(cmd, db.rows[cmd.key].record).value)
  {
    var rec := db.rows[cmd.key].record;
    var db' := Perform(db, ops);
    PerformOk(db, ops);
    SeenNow(db, cmd.key);
    SeenLater(db, db', cmd.key, rec);
    if Commit(db', cmd, rec, Decide(cmd, rec).value).Ok? {
      CommitIsCurrent(db', cmd, rec, Decide(cmd, rec).value);
    }
  }

  lemma FaithfulBeyond(db: Db, cmd: Command, ops: seq<Op>)
    requires Edits(cmd) && Shaped(db) && Live(db, cmd.key) && Decide(cmd, db.rows[cmd.key].record).Ok?
    requires Settled(cmd.key.kind, db.rows[cmd.key].record.status)
    requires cmd.expected > db.rows[cmd.key].record.version + Headroom(db.rows[cmd.key].record.status)
    requires Accepted(db, ops)
    ensures Faithful(Perform(db, ops), cmd, db.rows[cmd.key].record, Decide(cmd, db.rows[cmd.key].record).value)
  {
    PerformSettled(db, ops, cmd.key);
  }

  /** A request that has passed its checks on the record it read commits faithfully, whatever
      honest requests commit meanwhile, if and only if the version it sent is not ahead of that
      read, or so far ahead of a settled record that no history of honest requests gets there.
      Requests that guess versions do get there: see `Exactness`. */
  lemma SafeAmongHonestExactlyWhen(db: Db, cmd: Command)
    requires Edits(cmd) && Gate(cmd) && Shaped(db) && Live(db, cmd.key) && Decide(cmd, db.rows[cmd.key].record).Ok?
    ensures var read := db.rows[cmd.key].record;
            FaithfulAmongHonest(db, cmd, read, Decide(cmd, read).value) <==>
            !Overtakable(cmd.key.kind, read, cmd.expected)
  {
    var read := db.rows[cmd.key].record;
    var item := Decide(cmd, read).value;
    if Overtakable(cmd.key.kind, read, cmd.expected) {
      var ops := Overtake(db, cmd);
      assert Accepted(db, ops) && !Faithful(Perform(db, ops), cmd, read, item);
    } else {
      forall ops | Accepted(db, ops) ensures Faithful(Perform(db, ops), cmd, read, item) {
        if cmd.expected <= read.version {
          FaithfulBehind(db, cmd, ops);
        } else {
          FaithfulBeyond(db, cmd, ops);
        }
      }
    }
  }
}
