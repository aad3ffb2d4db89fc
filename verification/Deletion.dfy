/** The draft-only rule of deletes, which the program checks on an early read without any
    version guard, and what a delete does to others' answers. */
module Deletion {
  import opened Records
  import opened Transactions
  import opened Services
  import opened Statuses
  import opened Protocol
  import opened Invariants
  import opened Runs
  import opened Refinement
  import opened Provenance
  import opened Staleness
  import opened Realization
  import opened Exactness

  // Whether the row that a delete meets is a draft.

  /** The next step of a delete removes a row that is no draft. */
  predicate HitsReviewed(s: State, r: nat) {
    && r in s.requests && s.requests[r].Deleting?
    && Step(s, Next(r)).requests[r].Deleted?
    && s.db.rows[s.requests[r].cmd.key].record.status != Draft
  }

  /** A move out of draft that the record's present row allows. */
  function Departure(db: Db, key: Key): Command
    requires key in db.rows
  {
    Transition(key, db.rows[key].record.version, if key.kind == Certificate then Valid else Review, MOTIVE,
               Outsider(db.rows[key].record))
  }

  lemma DepartureOk(db: Db, key: Key)
    requires Shaped(db) && Live(db, key) && db.rows[key].record.status == Draft
    ensures Atomic(db, Departure(db, key)).Ok?
    ensures Live(Atomic(db, Departure(db, key)).value, key)
    ensures Atomic(db, Departure(db, key)).value.rows[key].record.status
         == if key.kind == Certificate then Valid else Review
  {
    assert ShapedAt(db, key);
    MoveOpOk(db, key, if key.kind == Certificate then Valid else Review);
  }

  /** The delete tests the draft; then another request submits or publishes it. */
  function Overlap(db: Db, cmd: Command, r: nat, b: nat): seq<Event>
    requires cmd.Delete? && cmd.key in db.rows
  {
    Reading(r, cmd) + Alone(b, Departure(db, cmd.key))
  }

  lemma OverlapRun(s: State, cmd: Command, r: nat, b: nat)
    requires Shaped(s.db) && r !in s.requests && b !in s.requests && r != b
    requires cmd.Delete? && Gate(cmd) && Live(s.db, cmd.key) && s.db.rows[cmd.key].record.status == Draft
    ensures Honest(s, Overlap(s.db, cmd, r, b))
    ensures var end := Run(s, Overlap(s.db, cmd, r, b));
            && Atomic(s.db, Departure(s.db, cmd.key)) == Ok(end.db)
            && r in end.requests && end.requests[r] == Deleting(cmd, s.db.rows[cmd.key].record)
  {
    hide Atomic, Gate, Alone, Reading, Run, Honest, Departure;
    var rec, submit := s.db.rows[cmd.key].record, Departure(s.db, cmd.key);
    assert submit.Transition? by {
      DepartureIsMove(s.db, cmd.key);
    }
    DepartureOk(s.db, cmd.key);
    TestingRun(s, r, cmd);
    var tested := State(s.db, s.requests[r := Deleting(cmd, rec)]);
    AloneEdit(tested, b, submit);
    RunConcat(s, Reading(r, cmd), Alone(b, submit));
    HonestConcat(s, Reading(r, cmd), Alone(b, submit));
  }

  lemma DepartureIsMove(db: Db, key: Key)
    requires key in db.rows
    ensures Departure(db, key).Transition? && Departure(db, key).key == key
  {
  }

  /** The race exists for every draft: from every state with a live draft, a run of two honest
      requests ends with the draft submitted, or published, and then deleted. */
  lemma DeleteHitsReviewed(s: State, cmd: Command, r: nat, b: nat)
    requires Shaped(s.db) && r !in s.requests && b !in s.requests && r != b
    requires cmd.Delete? && Gate(cmd) && Live(s.db, cmd.key) && s.db.rows[cmd.key].record.status == Draft
    ensures var es := Overlap(s.db, cmd, r, b) + [Next(r)];
            var end := Run(s, es);
            && Honest(s, es) && HitsReviewed(Run(s, Overlap(s.db, cmd, r, b)), r)
            && r in end.requests && end.requests[r].Deleted? && Marked(end.db, cmd.key)
            && end.db.rows[cmd.key].record.status == if cmd.key.kind == Certificate then Valid else Review
  {
    hide Atomic, Gate, Run, Honest, Overlap, Departure;
    OverlapRun(s, cmd, r, b);
    DepartureOk(s.db, cmd.key);
    RunSnoc(s, Overlap(s.db, cmd, r, b), Next(r));
  }

  lemma StepNeverDeletes(s: State, e: Event, r: nat)
    requires r in s.requests && s.requests[r].cmd.Delete? && !s.requests[r].Deleting? && !s.requests[r].Deleted?
    requires s.requests[r].Loading? || s.requests[r].Loaded? ==> s.requests[r].item.status != Draft
    ensures var phase := Step(s, e).requests[r];
            && phase.cmd.Delete? && !phase.Deleting? && !phase.Deleted?
            && (phase.Loading? || phase.Loaded? ==> phase.item.status != Draft)
  {
    hide CreateVersion, UpdateVersion, LogOf, Decide;
  }

  /** A delete that does not read a draft never comes to its statement. */
  lemma {:induction false} NeverDeletes(s: State, es: seq<Event>, r: nat)
    requires r in s.requests && s.requests[r].cmd.Delete? && !s.requests[r].Deleting? && !s.requests[r].Deleted?
    requires s.requests[r].Loading? || s.requests[r].Loaded? ==> s.requests[r].item.status != Draft
    ensures r in Run(s, es).requests
    ensures var phase := Run(s, es).requests[r];
            && phase.cmd.Delete? && !phase.Deleting? && !phase.Deleted?
            && (phase.Loading? || phase.Loaded? ==> phase.item.status != Draft)
  {
    if es != [] {
      NeverDeletes(s, es[..|es| - 1], r);
      StepNeverDeletes(Run(s, es[..|es| - 1]), es[|es| - 1], r);
    }
  }

  /** When the rule can be relied on: a delete that arrives can come to remove a record that is
      no draft, by honest requests alone, exactly if its record is a live draft as it arrives;
      and no interference, honest or not, adds to that. So no draft is safe. */
  lemma DraftOnlyFailsExactlyWhen(s: State, cmd: Command, r: nat)
    requires Inv(s) && r !in s.requests && cmd.Delete? && Gate(cmd)
    ensures var arrived := Step(s, Begin(r, cmd));
            var draft := Live(s.db, cmd.key) && s.db.rows[cmd.key].record.status == Draft;
            && ((exists es :: Honest(arrived, es) && HitsReviewed(Run(arrived, es), r)) <==> draft)
            && ((exists es :: HitsReviewed(Run(arrived, es), r)) <==> draft)
  {
    hide HitsReviewed, Overlap, Gate, Departure, LogOf;
    var arrived := Step(s, Begin(r, cmd));
    if Live(s.db, cmd.key) && s.db.rows[cmd.key].record.status == Draft {
      var b := Above(s.requests.Keys + {r});
      DeleteHitsReviewed(s, cmd, r, b);
      var rest := [Next(r), Next(r)] + Alone(b, Departure(s.db, cmd.key));
      OverlapSplit(s, cmd, r, b);
      assert Honest(arrived, rest) && HitsReviewed(Run(arrived, rest), r);
    } else {
      forall es ensures !HitsReviewed(Run(arrived, es), r) {
        NeverDeletes(arrived, es, r);
        NotReady(Run(arrived, es), r);
      }
    }
  }

  lemma NotReady(s: State, r: nat)
    requires r in s.requests && !s.requests[r].Deleting?
    ensures !HitsReviewed(s, r)
  {
  }

  lemma OverlapSplit(s: State, cmd: Command, r: nat, b: nat)
    requires r !in s.requests && cmd.Delete? && cmd.key in s.db.rows && Honest(s, Overlap(s.db, cmd, r, b))
    ensures var rest := [Next(r), Next(r)] + Alone(b, Departure(s.db, cmd.key));
            && Honest(Step(s, Begin(r, cmd)), rest)
            && Run(Step(s, Begin(r, cmd)), rest) == Run(s, Overlap(s.db, cmd, r, b))
  {
    hide Step, Departure, Alone;
    var rest := [Next(r), Next(r)] + Alone(b, Departure(s.db, cmd.key));
    assert Overlap(s.db, cmd, r, b) == ([] + [Begin(r, cmd)]) + rest;
    RunSnoc(s, [], Begin(r, cmd));
    RunConcat(s, [] + [Begin(r, cmd)], rest);
    HonestConcat(s, [] + [Begin(r, cmd)], rest);
  }

  /** Whether the newest of these committed requests leaves the record a draft. */
  predicate LeftDraft(cmds: seq<Command>) {
    cmds == [] || (var last := cmds[|cmds| - 1]; last.Update? || (last.Transition? && last.target == Draft))
  }

  lemma StatusFromCommits(s: State, es: seq<Event>, key: Key)
    requires Inv(s) && key in s.db.rows && s.db.rows[key].record.status == Draft
    ensures key in Run(s, es).db.rows
    ensures Run(s, es).db.rows[key].record.status == Draft <==> LeftDraft(CommitsOf(Linearize(s, es), key))
  {
    hide WrittenBy, LogOf, CommitsOf, Linearize, Run;
    var end, cmds := Run(s, es).db, CommitsOf(Linearize(s, es), key);
    RunOk(s, es);
    LogIsHistory(s, es, key);
    assert LaterAt(s.db, end, key) && ShapedAt(s.db, key) && ShapedAt(end, key);
    if cmds != [] {
      var log := LogOf(end.revisions, key);
      assert WrittenBy(log[|log| - 1], cmds[|cmds| - 1], key, |log| - 1);
      LastWritten(log[|log| - 1], cmds[|cmds| - 1], key, |log| - 1);
    }
  }

  lemma LastWritten(r: Revision, cmd: Command, key: Key, at: nat)
    requires WrittenBy(r, cmd, key, at) && at > 0
    ensures r.status == Draft <==> cmd.Update? || (cmd.Transition? && cmd.target == Draft)
  {
  }

  /** What a delete removes, in any run: after its row query, and whatever other requests commit
      before its statement, the row it removes is a draft exactly if the newest edit committed
      in between was an update or a return to draft, or there was none - in particular if the
      version has not moved. */
  lemma DeleteHitsDraftExactlyWhen(s: State, es: seq<Event>, r: nat)
    requires Inv(s) && r in s.requests && s.requests[r].Loading? && s.requests[r].cmd.Delete?
    requires Live(s.db, s.requests[r].cmd.key) && s.db.rows[s.requests[r].cmd.key].record == s.requests[r].item
    requires r in Run(s, es).requests && Run(s, es).requests[r].Deleting? && Live(Run(s, es).db, s.requests[r].cmd.key)
    ensures var key, end := s.requests[r].cmd.key, Run(s, es);
            var after := Step(end, Next(r));
            && after.requests[r].Deleted? && Marked(after.db, key)
            && after.db.rows[key].record == end.db.rows[key].record
            && (after.db.rows[key].record.status == Draft <==> LeftDraft(CommitsOf(Linearize(s, es), key)))
            && (after.db.rows[key].record.version == s.requests[r].item.version ==>
                  after.db.rows[key].record.status == Draft)
  {
    hide LeftDraft, CommitsOf, Linearize, LogOf, Decide, Run;
    var cmd, item := s.requests[r].cmd, s.requests[r].item;
    RunReadOf(s, es, r, cmd, item);
    RunOk(s, es);
    assert PhaseOk(Run(s, es).db, Run(s, es).requests[r]);
    assert LaterAt(s.db, Run(s, es).db, cmd.key);
    StatusFromCommits(s, es, cmd.key);
  }

  // What a delete does to another request's answer.

  /** A request commits, an admin deletes the draft, and only then the request's last query runs. */
  function Vanishing(cmd: Command, a: nat, removal: Command, b: nat): seq<Event> {
    Alone(a, cmd) + Reading(b, removal) + [Next(b)] + [Next(a)]
  }

  /** From every state in which a create or an update would be accepted, there is a run of
      honest requests in which it is committed and answered "not found". */
  lemma CommittedButNotFound(s: State, cmd: Command, a: nat, removal: Command, b: nat)
    requires Shaped(s.db) && a !in s.requests && b !in s.requests && a != b
    requires (cmd.Create? || cmd.Update?) && Atomic(s.db, cmd).Ok?
    requires removal.Delete? && removal.key == TargetOf(s.db, cmd) && Gate(removal)
    ensures var es := Vanishing(cmd, a, removal, b);
            var key, end, committed := TargetOf(s.db, cmd), Run(s, es), Atomic(s.db, cmd).value;
            && Honest(s, es)
            && a in end.requests && end.requests[a] == Done(cmd, Err(NotFound))
            && key in committed.rows && committed.rows[key].record.fields == cmd.fields
            && end.db == committed.(rows := committed.rows[key := Row(committed.rows[key].record, true)])
  {
    hide Atomic, Gate, Alone, Reading, Run, Honest, Decide, LogOf, TargetOf;
    DraftLands(s.db, cmd);
    AloneIsAtomic(s, a, cmd);
    var written := Run(s, Alone(a, cmd));
    TestingRun(written, b, removal);
    RunConcat(s, Alone(a, cmd), Reading(b, removal));
    HonestConcat(s, Alone(a, cmd), Reading(b, removal));
    RunSnoc(s, Alone(a, cmd) + Reading(b, removal), Next(b));
    RunSnoc(s, Alone(a, cmd) + Reading(b, removal) + [Next(b)], Next(a));
  }

  lemma DraftLands(db: Db, cmd: Command)
    requires (cmd.Create? || cmd.Update?) && Shaped(db) && Atomic(db, cmd).Ok?
    ensures var after, key := Atomic(db, cmd).value, TargetOf(db, cmd);
            Live(after, key) && after.rows[key].record.status == Draft && after.rows[key].record.fields == cmd.fields
  {
  }
}
