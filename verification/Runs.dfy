/** The invariants along whole runs, and what every read, every answer and every tombstone
    in a run can be relied on for. None of this needs a hypothesis on the clients. */
module Runs {
  import opened Records
  import opened Transactions
  import opened Services
  import opened Protocol
  import opened Invariants

  lemma SeenNow(db: Db, key: Key)
    requires Shaped(db) && key in db.rows
    ensures Seen(db, key, db.rows[key].record)
    ensures Numbered(LogOf(db.revisions, key))
    ensures |LogOf(db.revisions, key)| == db.rows[key].record.version
  {
    assert ShapedAt(db, key);
  }

  lemma StartOk(db: Db, cmd: Command)
    requires Shaped(db)
    ensures PhaseOk(db, Start(db, cmd))
  {
    if !cmd.Create? && Live(db, cmd.key) {
      SeenNow(db, cmd.key);
    }
  }

  /** A revision query that runs any time after the row query completes a coherent read. */
  lemma SecondQuery(db: Db, key: Key, item: Record)
    requires Shaped(db) && Seen(db, key, item)
    ensures Coherent(db, key, View(item, LogOf(db.revisions, key)))
  {
    SeenNow(db, key);
  }

  lemma CreateOk(db: Db, cmd: Command, item: Record)
    requires cmd.Create? && item.Kind() == cmd.kind && Shaped(db) && PhaseOk(db, Drafting(cmd, item))
    ensures var next := Advance(db, Drafting(cmd, item));
            Shaped(next.0) && Later(db, next.0) && PhaseOk(next.0, next.1)
  {
    hide LogOf, Gate;
    LaterReflexive(db);
    if CreateVersion(db, item, cmd.who).Ok? {
      CreateKeepsShape(db, item, cmd.who);
      var key := NextKey(db, item.Kind());
      assert ShapedAt(db, key);
      LogOfAppend(db.revisions, NewRevision(key, item, cmd.who, CreateAction, CreateReason(item.Kind())), key);
    }
  }

  lemma CommitOk(db: Db, cmd: Command, before: Record, item: Record)
    requires Edits(cmd) && Shaped(db) && PhaseOk(db, Checked(cmd, before, item))
    ensures var next := Advance(db, Checked(cmd, before, item));
            Shaped(next.0) && Later(db, next.0) && PhaseOk(next.0, next.1)
  {
    LaterReflexive(db);
    DecideFrame(cmd, before);
    if Commit(db, cmd, before, item).Ok? {
      UpdateKeepsShape(db, cmd.key, cmd.expected, item, cmd.who, ActionOf(cmd), before.status, ReasonOf(cmd));
      assert ShapedAt(db, cmd.key);
      LogOfAppend(db.revisions, NewRevision(cmd.key, item, cmd.who, ActionOf(cmd), ReasonOf(cmd)), cmd.key);
    }
  }

  lemma DeleteOk(db: Db, cmd: Command, before: Record)
    requires cmd.Delete? && Shaped(db) && PhaseOk(db, Deleting(cmd, before))
    ensures var next := Advance(db, Deleting(cmd, before));
            Shaped(next.0) && Later(db, next.0) && PhaseOk(next.0, next.1)
  {
    LaterReflexive(db);
    if SoftDelete(db, cmd.key).Ok? {
      SoftDeleteKeepsShape(db, cmd.key);
      SeenLater(db, SoftDelete(db, cmd.key).value, cmd.key, before);
    }
  }

  lemma FinalGetOk(db: Db, cmd: Command, key: Key)
    requires cmd.Create? || Edits(cmd)
    requires Shaped(db) && PhaseOk(db, Written(cmd, key))
    ensures var next := Advance(db, Written(cmd, key)); next.0 == db && PhaseOk(db, next.1)
  {
    SeenNow(db, key);
  }

  lemma AnswerOk(db: Db, cmd: Command, key: Key, item: Record)
    requires cmd.Create? || Edits(cmd)
    requires Shaped(db) && PhaseOk(db, Answering(cmd, key, item))
    ensures var next := Advance(db, Answering(cmd, key, item)); next.0 == db && PhaseOk(db, next.1)
  {
    SecondQuery(db, key, item);
    var view := View(item, LogOf(db.revisions, key));
    assert Coherent(db, key, view) && OwnRevision(cmd, key, view.log);
  }

  lemma AdvanceOk(db: Db, phase: Phase)
    requires Shaped(db) && PhaseOk(db, phase)
    ensures var next := Advance(db, phase);
            Shaped(next.0) && Later(db, next.0) && PhaseOk(next.0, next.1)
  {
    hide Decide, CreateVersion, Commit, SoftDelete, LogOf, Shaped, Later, Gate;
    LaterReflexive(db);
    match phase
    case Loading(cmd, item) => SecondQuery(db, cmd.key, item);
    case Loaded(cmd, item, log) =>
    case Checked(cmd, before, item) => CommitOk(db, cmd, before, item);
    case Drafting(cmd, item) => CreateOk(db, cmd, item);
    case Deleting(cmd, before) => DeleteOk(db, cmd, before);
    case Deleted(cmd, before) => NoteKeepsShape(db, cmd, before.status);
    case Written(cmd, key) => FinalGetOk(db, cmd, key);
    case Answering(cmd, key, item) => AnswerOk(db, cmd, key, item);
    case Done(_, _) =>
  }

  lemma AdvanceKeepsCommand(db: Db, phase: Phase)
    ensures Advance(db, phase).1.cmd == phase.cmd
  {
  }

  lemma AbortOk(db: Db, cmd: Command)
    ensures PhaseOk(db, Done(cmd, Err(Unavailable)))
  {
  }

  lemma StepOk(s: State, e: Event)
    requires Inv(s)
    ensures Inv(Step(s, e)) && Later(s.db, Step(s, e).db)
  {
    hide Advance, Start, Shaped, PhaseOk, Later;
    LaterReflexive(s.db);
    var s' := Step(s, e);
    match e
    case Begin(r, cmd) => StartOk(s.db, cmd);
    case Abort(r) => if r in s.requests { AbortOk(s.db, s.requests[r].cmd); }
    case Next(r) =>
      if r in s.requests {
        AdvanceOk(s.db, s.requests[r]);
        forall q | q in s'.requests ensures PhaseOk(s'.db, s'.requests[q]) {
          if q != r {
            PhaseOkLater(s.db, s'.db, s.requests[q]);
          }
        }
      }
  }

  /** Every run keeps the invariant and only moves forward. */
  lemma {:induction false} RunOk(s: State, es: seq<Event>)
    requires Inv(s)
    ensures Inv(Run(s, es)) && Later(s.db, Run(s, es).db)
  {
    if es == [] {
      LaterReflexive(s.db);
    } else {
      var mid := Run(s, es[..|es| - 1]);
      RunOk(s, es[..|es| - 1]);
      StepOk(mid, es[|es| - 1]);
      LaterTransitive(s.db, mid.db, Run(s, es).db);
    }
  }

  /** Revision log shape: at every point of every run the revisions of a record are exactly
      versions 1 to Version, and between two points the log grows only at its end. */
  lemma LogShape(s: State, es: seq<Event>, key: Key)
    requires Inv(s)
    ensures var now, end := s.db, Run(s, es).db;
            && LogOf(now.revisions, key) <= LogOf(end.revisions, key)
            && Numbered(LogOf(end.revisions, key))
            && |LogOf(end.revisions, key)| == (if key in end.rows then end.rows[key].record.version else 0)
            && (key in now.rows ==> key in end.rows && now.rows[key].record.version <= end.rows[key].record.version)
  {
    RunOk(s, es);
    assert ShapedAt(Run(s, es).db, key);
    assert LaterAt(s.db, Run(s, es).db, key);
  }

  /** Torn reads stay coherent: whatever commits land between the row query of a Get or List
      and its revision query, the revisions reach the item's version and agree with it there. */
  lemma TornReadCoherent(s: State, es: seq<Event>, key: Key)
    requires Inv(s) && Live(s.db, key)
    ensures var item, log := s.db.rows[key].record, LogOf(Run(s, es).db.revisions, key);
            item.version <= |log| && AgreesAt(log, item)
  {
    RunOk(s, es);
    SeenNow(s.db, key);
    SeenLater(s.db, Run(s, es).db, key, s.db.rows[key].record);
  }

  /** The same for every read that a request answers with, in every reachable state. */
  lemma AnswersCoherent(s: State, es: seq<Event>, r: nat)
    requires Inv(s)
    requires var end := Run(s, es); r in end.requests && end.requests[r].Done? && end.requests[r].outcome.Ok?
    requires Run(s, es).requests[r].outcome.value.Shown?
    ensures var view := Run(s, es).requests[r].outcome.value.view;
            && view.item.version <= |view.log|
            && AgreesAt(view.log, view.item)
            && Numbered(view.log)
  {
    RunOk(s, es);
    var end := Run(s, es);
    assert PhaseOk(end.db, end.requests[r]);
    assert Answered(end.db, end.requests[r].cmd, end.requests[r].outcome.value);
  }

  /** Read your own write: a successful edit answers with a version past the one it was sent,
      and the revision in that slot is the caller's own, even when others commit before the
      final Get. */
  lemma ReadYourOwnWrite(s: State, es: seq<Event>, r: nat)
    requires Inv(s)
    requires var end := Run(s, es); r in end.requests && end.requests[r].Done? && end.requests[r].outcome.Ok?
    requires Edits(Run(s, es).requests[r].cmd)
    ensures Run(s, es).requests[r].outcome.value.Shown?
    ensures var cmd, view := Run(s, es).requests[r].cmd, Run(s, es).requests[r].outcome.value.view;
            && view.item.version >= cmd.expected + 1
            && cmd.expected < |view.log|
            && view.log[cmd.expected].version == cmd.expected + 1
            && view.log[cmd.expected].actor == cmd.who.actor
            && view.log[cmd.expected].requestId == cmd.who.requestId
            && view.log[cmd.expected].action == ActionOf(cmd)
            && view.log[cmd.expected].reason == ReasonOf(cmd)
  {
    RunOk(s, es);
    var end := Run(s, es);
    assert PhaseOk(end.db, end.requests[r]);
  }

  /** Tombstones are final: once a delete has committed, no request in flight or later
      changes the row or its revision log. */
  lemma TombstoneFinal(s: State, es: seq<Event>, key: Key)
    requires Inv(s) && key in s.db.rows && s.db.rows[key].deleted
    ensures var end := Run(s, es).db;
            key in end.rows && end.rows[key] == s.db.rows[key]
            && LogOf(end.revisions, key) == LogOf(s.db.revisions, key)
  {
    RunOk(s, es);
    assert LaterAt(s.db, Run(s, es).db, key);
  }

  /** A commit whose version guard fails changes no table and ends its request in a conflict. */
  lemma ConflictChangesNothing(s: State, r: nat)
    requires r in s.requests && s.requests[r].Checked?
    requires var cmd := s.requests[r].cmd;
             !Live(s.db, cmd.key) || s.db.rows[cmd.key].record.version != cmd.expected
    ensures Step(s, Next(r)).db == s.db
    ensures Step(s, Next(r)).requests == s.requests[r := Done(s.requests[r].cmd, Err(Conflict))]
  {
  }
}
