/** The converse of the refinement, and a run that shows why it needs its hypothesis. */
module Realization {
  import opened Records
  import opened Transactions
  import opened Services
  import opened Statuses
  import opened Access
  import opened Protocol
  import opened Invariants
  import opened Refinement
  import opened Evidence
  import opened Staleness

  lemma {:induction false} RunConcat(s: State, es: seq<Event>, fs: seq<Event>)
    ensures Run(s, es + fs) == Run(Run(s, es), fs)
  {
    if fs == [] {
      assert es + fs == es;
    } else {
      assert (es + fs)[..|es + fs| - 1] == es + fs[..|fs| - 1];
      RunConcat(s, es, fs[..|fs| - 1]);
    }
  }

  lemma {:induction false} HonestConcat(s: State, es: seq<Event>, fs: seq<Event>)
    ensures Honest(s, es + fs) <==> Honest(s, es) && Honest(Run(s, es), fs)
  {
    if fs == [] {
      assert es + fs == es;
    } else {
      assert (es + fs)[..|es + fs| - 1] == es + fs[..|fs| - 1];
      RunConcat(s, es, fs[..|fs| - 1]);
      HonestConcat(s, es, fs[..|fs| - 1]);
    }
  }

  lemma RunSnoc(s: State, es: seq<Event>, e: Event)
    ensures Run(s, es + [e]) == Step(Run(s, es), e)
    ensures Honest(s, es + [e]) <==> Honest(s, es) && (e.Begin? ==> Vouched(Run(s, es).db, e.cmd))
  {
    assert (es + [e])[..|es|] == es;
  }

  /** The two queries and the local decision of an edit. */
  function Reading(r: nat, cmd: Command): seq<Event> {
    [] + [Begin(r, cmd)] + [Next(r)] + [Next(r)]
  }

  /** The states between the queries and the decision of an edit. */
  function Loading1(s: State, r: nat, cmd: Command, rec: Record): State
    requires Edits(cmd)
  {
    State(s.db, s.requests[r := Loading(cmd, rec)])
  }

  function Loaded2(s: State, r: nat, cmd: Command, rec: Record): State
    requires Edits(cmd)
  {
    State(s.db, s.requests[r := Loaded(cmd, rec, LogOf(s.db.revisions, cmd.key))])
  }

  function Checked3(s: State, r: nat, cmd: Command, rec: Record): State
    requires Edits(cmd) && Decide(cmd, rec).Ok?
  {
    State(s.db, s.requests[r := Checked(cmd, rec, Decide(cmd, rec).value)])
  }

  lemma FirstQueryStep(s: State, r: nat, cmd: Command)
    requires r !in s.requests && Edits(cmd) && Gate(cmd) && Live(s.db, cmd.key)
    ensures Step(s, Begin(r, cmd)) == Loading1(s, r, cmd, s.db.rows[cmd.key].record)
  {
    hide Gate, Decide;
  }

  lemma SecondQueryStep(s: State, r: nat, cmd: Command, rec: Record)
    requires Edits(cmd)
    ensures Step(Loading1(s, r, cmd, rec), Next(r)) == Loaded2(s, r, cmd, rec)
  {
    hide Decide;
    var log := LogOf(s.db.revisions, cmd.key);
    assert s.requests[r := Loading(cmd, rec)][r := Loaded(cmd, rec, log)] == s.requests[r := Loaded(cmd, rec, log)];
  }

  lemma DecisionStep(s: State, r: nat, cmd: Command, rec: Record)
    requires Edits(cmd) && Decide(cmd, rec).Ok?
    ensures Step(Loaded2(s, r, cmd, rec), Next(r)) == Checked3(s, r, cmd, rec)
  {
    hide Decide, LogOf;
    var log, ready := LogOf(s.db.revisions, cmd.key), Checked(cmd, rec, Decide(cmd, rec).value);
    assert s.requests[r := Loaded(cmd, rec, log)][r := ready] == s.requests[r := ready];
  }

  lemma ReadingRun(s: State, r: nat, cmd: Command)
    requires r !in s.requests && Edits(cmd) && Gate(cmd) && Live(s.db, cmd.key)
    requires Decide(cmd, s.db.rows[cmd.key].record).Ok?
    ensures Honest(s, Reading(r, cmd)) <==> Vouched(s.db, cmd)
    ensures Run(s, Reading(r, cmd)) == Checked3(s, r, cmd, s.db.rows[cmd.key].record)
  {
    hide Decide, Gate, Step, LogOf, Vouched, Loading1, Loaded2, Checked3;
    var rec := s.db.rows[cmd.key].record;
    FirstQueryStep(s, r, cmd);
    SecondQueryStep(s, r, cmd, rec);
    DecisionStep(s, r, cmd, rec);
    RunSnoc(s, [], Begin(r, cmd));
    RunSnoc(s, [] + [Begin(r, cmd)], Next(r));
    RunSnoc(s, [] + [Begin(r, cmd)] + [Next(r)], Next(r));
  }

  /** The events that take one request to the end of its transaction, with no other between. */
  function Alone(r: nat, cmd: Command): seq<Event> {
    if cmd.Create? then [] + [Begin(r, cmd)] + [Next(r)] else Reading(r, cmd) + [Next(r)]
  }

  lemma CurrentIsVouched(db: Db, cmd: Command)
    requires Shaped(db) && Edits(cmd) && Live(db, cmd.key) && db.rows[cmd.key].record.version == cmd.expected
    ensures Vouched(db, cmd)
  {
    assert ShapedAt(db, cmd.key);
    var log := LogOf(db.revisions, cmd.key);
    assert log[|log| - 1].version == cmd.expected;
  }

  lemma CommitStep(db: Db, others: map<nat, Phase>, r: nat, cmd: Command, before: Record, item: Record)
    requires Edits(cmd) && Commit(db, cmd, before, item).Ok?
    ensures Step(State(db, others[r := Checked(cmd, before, item)]), Next(r))
         == State(Commit(db, cmd, before, item).value, others[r := Written(cmd, cmd.key)])
  {
    var ready := others[r := Checked(cmd, before, item)];
    assert ready[r := Written(cmd, cmd.key)] == others[r := Written(cmd, cmd.key)];
  }

  lemma CreateSteps(s: State, r: nat, cmd: Command)
    requires cmd.Create? && r !in s.requests && Atomic(s.db, cmd).Ok?
    ensures Step(Step(s, Begin(r, cmd)), Next(r))
         == State(Atomic(s.db, cmd).value, s.requests[r := Written(cmd, NextKey(s.db, cmd.kind))])
  {
    var item := NewRecord(cmd.kind, cmd.code, cmd.fields, cmd.who.actor);
    var ready := s.requests[r := Drafting(cmd, item)];
    assert Step(s, Begin(r, cmd)) == State(s.db, ready);
    assert ready[r := Written(cmd, NextKey(s.db, cmd.kind))] == s.requests[r := Written(cmd, NextKey(s.db, cmd.kind))];
  }

  lemma AtomicEdit(db: Db, cmd: Command)
    requires Edits(cmd) && Atomic(db, cmd).Ok?
    ensures Gate(cmd) && Live(db, cmd.key) && db.rows[cmd.key].record.version == cmd.expected
    ensures var rec := db.rows[cmd.key].record;
            Decide(cmd, rec).Ok? && Atomic(db, cmd) == Commit(db, cmd, rec, Decide(cmd, rec).value)
  {
  }

  lemma AloneEdit(s: State, r: nat, cmd: Command)
    requires Shaped(s.db) && r !in s.requests && Edits(cmd) && Atomic(s.db, cmd).Ok?
    ensures Honest(s, Alone(r, cmd))
    ensures Run(s, Alone(r, cmd)) == State(Atomic(s.db, cmd).value, s.requests[r := Written(cmd, cmd.key)])
  {
    AtomicEdit(s.db, cmd);
    var rec := s.db.rows[cmd.key].record;
    CurrentIsVouched(s.db, cmd);
    ReadingRun(s, r, cmd);
    RunSnoc(s, Reading(r, cmd), Next(r));
    CommitStep(s.db, s.requests, r, cmd, rec, Decide(cmd, rec).value);
  }

  lemma AloneCreate(s: State, r: nat, cmd: Command)
    requires r !in s.requests && cmd.Create? && Atomic(s.db, cmd).Ok?
    ensures Honest(s, Alone(r, cmd))
    ensures Run(s, Alone(r, cmd))
         == State(Atomic(s.db, cmd).value, s.requests[r := Written(cmd, NextKey(s.db, cmd.kind))])
  {
    CreateSteps(s, r, cmd);
    RunSnoc(s, [], Begin(r, cmd));
    RunSnoc(s, [] + [Begin(r, cmd)], Next(r));
  }

  lemma DoneStays(s: State, r: nat)
    requires r in s.requests && s.requests[r].Done?
    ensures Step(s, Next(r)) == s
  {
    assert s.requests[r := s.requests[r]] == s.requests;
  }

  /** An edit that is refused on what it reads ends with that refusal. */
  lemma ReadingRefused(s: State, r: nat, cmd: Command)
    requires r !in s.requests && Edits(cmd) && Gate(cmd) && Live(s.db, cmd.key)
    requires Decide(cmd, s.db.rows[cmd.key].record).Err?
    ensures Run(s, Reading(r, cmd))
         == State(s.db, s.requests[r := Done(cmd, Err(Decide(cmd, s.db.rows[cmd.key].record).error))])
  {
    hide Decide, Gate, LogOf;
    var rec := s.db.rows[cmd.key].record;
    FirstQueryStep(s, r, cmd);
    SecondQueryStep(s, r, cmd, rec);
    var refused := Done(cmd, Err(Decide(cmd, rec).error));
    assert s.requests[r := Loaded(cmd, rec, LogOf(s.db.revisions, cmd.key))][r := refused] == s.requests[r := refused];
    RunSnoc(s, [], Begin(r, cmd));
    RunSnoc(s, [] + [Begin(r, cmd)], Next(r));
    RunSnoc(s, [] + [Begin(r, cmd)] + [Next(r)], Next(r));
  }

  /** A request that is refused as it arrives is through with it. */
  lemma ArrivalRefused(s: State, r: nat, cmd: Command, error: Error)
    requires r !in s.requests && (cmd.Create? || Edits(cmd)) && Start(s.db, cmd) == Done(cmd, Err(error))
    ensures Run(s, Alone(r, cmd)) == State(s.db, s.requests[r := Done(cmd, Err(error))])
  {
    hide Start;
    var refused := State(s.db, s.requests[r := Done(cmd, Err(error))]);
    DoneStays(refused, r);
    RunSnoc(s, [], Begin(r, cmd));
    RunSnoc(s, [] + [Begin(r, cmd)], Next(r));
    RunSnoc(s, [] + [Begin(r, cmd)] + [Next(r)], Next(r));
    RunSnoc(s, Reading(r, cmd), Next(r));
  }

  /** A create that is refused for its code alone. */
  lemma DuplicateStep(db: Db, others: map<nat, Phase>, r: nat, cmd: Command, item: Record)
    requires cmd.Create? && item.Kind() == cmd.kind && CreateVersion(db, item, cmd.who).Err?
    ensures Step(State(db, others[r := Drafting(cmd, item)]), Next(r))
         == State(db, others[r := Done(cmd, Err(CreateVersion(db, item, cmd.who).error))])
  {
    hide CreateVersion;
    var refused := Done(cmd, Err(CreateVersion(db, item, cmd.who).error));
    assert others[r := Drafting(cmd, item)][r := refused] == others[r := refused];
  }

  lemma CreateRefused(s: State, r: nat, cmd: Command)
    requires r !in s.requests && cmd.Create? && Start(s.db, cmd).Drafting? && Atomic(s.db, cmd).Err?
    ensures Run(s, Alone(r, cmd)) == State(s.db, s.requests[r := Done(cmd, Err(Atomic(s.db, cmd).error))])
  {
    hide CreateVersion, ValidBusinessFields, Gate, Advance, Commit, Decide;
    DuplicateStep(s.db, s.requests, r, cmd, Start(s.db, cmd).item);
    RunSnoc(s, [], Begin(r, cmd));
    RunSnoc(s, [] + [Begin(r, cmd)], Next(r));
  }

  lemma EditRefused(s: State, r: nat, cmd: Command)
    requires r !in s.requests && Edits(cmd) && Gate(cmd) && Live(s.db, cmd.key) && Atomic(s.db, cmd).Err?
    ensures Run(s, Alone(r, cmd)) == State(s.db, s.requests[r := Done(cmd, Err(Atomic(s.db, cmd).error))])
  {
    hide Decide, LogOf, Gate;
    var rec := s.db.rows[cmd.key].record;
    RunSnoc(s, Reading(r, cmd), Next(r));
    match Decide(cmd, rec)
    case Err(error) =>
      ReadingRefused(s, r, cmd);
      DoneStays(Run(s, Reading(r, cmd)), r);
    case Ok(item) =>
      ReadingRun(s, r, cmd);
      var ready, refused := Checked(cmd, rec, item), Done(cmd, Err(Conflict));
      assert s.requests[r := ready][r := refused] == s.requests[r := refused];
  }

  lemma AloneRefused(s: State, r: nat, cmd: Command)
    requires r !in s.requests && (cmd.Create? || Edits(cmd)) && Atomic(s.db, cmd).Err?
    ensures Run(s, Alone(r, cmd)) == State(s.db, s.requests[r := Done(cmd, Err(Atomic(s.db, cmd).error))])
  {
    hide Decide, Commit, CreateVersion, Alone, Run;
    if Start(s.db, cmd).Done? {
      ArrivalRefused(s, r, cmd, Atomic(s.db, cmd).error);
    } else if cmd.Create? {
      CreateRefused(s, r, cmd);
    } else {
      EditRefused(s, r, cmd);
    }
  }

  /** A request that runs alone does what the atomic request does: one that is accepted commits
      the same tables, having sent a version that the hypothesis allows, and one that is refused
      changes nothing and ends with the same error. */
  lemma AloneIsAtomic(s: State, r: nat, cmd: Command)
    requires Shaped(s.db) && r !in s.requests && (cmd.Create? || Edits(cmd))
    ensures match Atomic(s.db, cmd)
            case Ok(after) =>
              Honest(s, Alone(r, cmd))
              && Run(s, Alone(r, cmd)) == State(after, s.requests[r := Written(cmd, TargetOf(s.db, cmd))])
            case Err(error) => Run(s, Alone(r, cmd)) == State(s.db, s.requests[r := Done(cmd, Err(error))])
  {
    hide Atomic, Alone, Run, Honest;
    if Atomic(s.db, cmd).Err? {
      AloneRefused(s, r, cmd);
    } else if cmd.Create? {
      AloneCreate(s, r, cmd);
    } else {
      AloneEdit(s, r, cmd);
    }
  }

  /** The two queries and the draft test of a delete that nothing interrupts. */
  lemma TestingRun(s: State, r: nat, cmd: Command)
    requires r !in s.requests && cmd.Delete? && Gate(cmd) && Live(s.db, cmd.key)
    requires s.db.rows[cmd.key].record.status == Draft
    ensures Honest(s, Reading(r, cmd))
    ensures Run(s, Reading(r, cmd)) == State(s.db, s.requests[r := Deleting(cmd, s.db.rows[cmd.key].record)])
  {
    hide Gate, LogOf;
    var rec := s.db.rows[cmd.key].record;
    RunSnoc(s, [], Begin(r, cmd));
    RunSnoc(s, [] + [Begin(r, cmd)], Next(r));
    RunSnoc(s, [] + [Begin(r, cmd)] + [Next(r)], Next(r));
    var loading, loaded := Loading(cmd, rec), Loaded(cmd, rec, LogOf(s.db.revisions, cmd.key));
    assert Step(s, Begin(r, cmd)) == State(s.db, s.requests[r := loading]);
    assert s.requests[r := loading][r := loaded] == s.requests[r := loaded];
    assert s.requests[r := loaded][r := Deleting(cmd, rec)] == s.requests[r := Deleting(cmd, rec)];
  }

  lemma RemovalStep(db: Db, others: map<nat, Phase>, r: nat, cmd: Command, before: Record)
    requires cmd.Delete? && SoftDelete(db, cmd.key).Ok?
    ensures Step(State(db, others[r := Deleting(cmd, before)]), Next(r))
         == State(SoftDelete(db, cmd.key).value, others[r := Deleted(cmd, before)])
  {
    assert others[r := Deleting(cmd, before)][r := Deleted(cmd, before)] == others[r := Deleted(cmd, before)];
  }

  // Histories as runs.

  /** The newest removal of `r` whose audit has not been written, or -1. */
  function Pending(ops: seq<Op>, r: nat): (i: int)
    ensures -1 <= i < |ops| && (i >= 0 ==> ops[i].Remove? && ops[i].r == r)
  {
    if ops == [] then -1
    else
      var last := ops[|ops| - 1];
      if last.Remove? && last.r == r then |ops| - 1
      else if last.Note? && last.r == r then -1
      else Pending(ops[..|ops| - 1], r)
  }

  /** The delete request that a removal belongs to. */
  function Removal(ops: seq<Op>, i: int, callers: nat -> Caller): Command
    requires 0 <= i < |ops| && ops[i].Remove?
  {
    Delete(ops[i].key, callers(ops[i].r))
  }

  /** The deletes of a history are those of `callers`: each of an admin, of a draft, and with an
      audit that comes after its removal, once. */
  predicate Deletes(db: Db, ops: seq<Op>, callers: nat -> Caller) {
    ops == [] ||
    (var init := ops[..|ops| - 1];
     Deletes(db, init, callers) &&
     match ops[|ops| - 1]
     case Exec(_, _, _) => true
     case Remove(r, key) =>
       && callers(r).role == Admin
       && (key in Perform(db, init).rows ==> Perform(db, init).rows[key].record.status == Draft)
     case Note(r, cmd, before) =>
       Pending(init, r) >= 0 && cmd == Removal(init, Pending(init, r), callers) && before == Draft)
  }

  /** The events that commit one entry of a history, after the entries `init`. */
  function Scene(first: nat, init: seq<Op>, op: Op, callers: nat -> Caller): seq<Event> {
    match op
    case Exec(_, cmd, _) => Alone(first + |init|, cmd)
    case Remove(r, key) => Reading(first + |init|, Delete(key, callers(r))) + [Next(first + |init|)]
    case Note(r, _, _) => if Pending(init, r) >= 0 then [] + [Next(first + Pending(init, r))] else []
  }

  /** The requests of a history, each numbered by its place in it. */
  function Script(first: nat, ops: seq<Op>, callers: nat -> Caller): seq<Event> {
    if ops == [] then []
    else
      var init := ops[..|ops| - 1];
      Script(first, init, callers) + Scene(first, init, ops[|ops| - 1], callers)
  }

  /** Every request of `a` is in `b` at the same point, and new ones are numbered below `bound`. */
  ghost predicate Extends(a: State, b: State, bound: nat) {
    && (forall r :: r in a.requests ==> r in b.requests && b.requests[r] == a.requests[r])
    && (forall r :: r in b.requests ==> r < bound)
  }

  predicate AwaitsAudit(s: State, q: nat, cmd: Command) {
    q in s.requests && s.requests[q].Deleted? && s.requests[q].cmd == cmd && s.requests[q].before.status == Draft
  }

  /** Every removal without its audit is a delete request that is about to write it. */
  ghost predicate AuditsDue(s: State, first: nat, ops: seq<Op>, callers: nat -> Caller) {
    forall r: nat :: Pending(ops, r) >= 0 ==>
      AwaitsAudit(s, first + Pending(ops, r), Removal(ops, Pending(ops, r), callers))
  }

  /** The state that the script of a history has to reach. */
  ghost predicate Reached(s: State, mid: State, first: nat, ops: seq<Op>, callers: nat -> Caller) {
    mid.db == Perform(s.db, ops) && Extends(s, mid, first + |ops|) && AuditsDue(mid, first, ops, callers)
  }

  lemma LastOp(db: Db, init: seq<Op>, op: Op)
    requires Accepted(db, init + [op])
    ensures Accepted(db, init) && Apply(Perform(db, init), op).Ok?
    ensures Perform(db, init + [op]) == Apply(Perform(db, init), op).value
  {
    assert (init + [op])[..|init|] == init;
  }

  lemma LastPending(init: seq<Op>, op: Op, r: nat)
    ensures Pending(init + [op], r)
         == if op.Remove? && op.r == r then |init| else if op.Note? && op.r == r then -1 else Pending(init, r)
  {
    assert (init + [op])[..|init|] == init;
  }

  /** A new request that leaves every other one where it is keeps the audits due. */
  lemma DueLater(mid: State, mid': State, first: nat, init: seq<Op>, op: Op, callers: nat -> Caller)
    requires AuditsDue(mid, first, init, callers)
    requires forall q :: q in mid.requests && q < first + |init| && (op.Note? ==> q != first + Pending(init, op.r)) ==>
               q in mid'.requests && mid'.requests[q] == mid.requests[q]
    requires op.Remove? ==> AwaitsAudit(mid', first + |init|, Delete(op.key, callers(op.r)))
    ensures AuditsDue(mid', first, init + [op], callers)
  {
    hide Pending, AwaitsAudit, Removal;
    var ops := init + [op];
    forall r: nat | Pending(ops, r) >= 0
      ensures AwaitsAudit(mid', first + Pending(ops, r), Removal(ops, Pending(ops, r), callers))
    {
      LastPending(init, op, r);
      if op.Remove? && op.r == r {
        RemovalNow(init, op, callers);
      } else {
        var i := Pending(init, r);
        RemovalStays(init, op, i, callers);
        assert AwaitsAudit(mid, first + i, Removal(init, i, callers));
        AwaitsStill(mid, mid', first + i, Removal(init, i, callers));
      }
    }
  }

  lemma RemovalNow(init: seq<Op>, op: Op, callers: nat -> Caller)
    requires op.Remove?
    ensures Removal(init + [op], |init|, callers) == Delete(op.key, callers(op.r))
  {
  }

  lemma RemovalStays(init: seq<Op>, op: Op, i: int, callers: nat -> Caller)
    requires 0 <= i < |init| && init[i].Remove?
    ensures Removal(init + [op], i, callers) == Removal(init, i, callers)
  {
  }

  lemma AwaitsStill(mid: State, mid': State, q: nat, cmd: Command)
    requires AwaitsAudit(mid, q, cmd)
    requires q in mid.requests ==> q in mid'.requests && mid'.requests[q] == mid.requests[q]
    ensures AwaitsAudit(mid', q, cmd)
  {
  }

  lemma ApplyExec(db: Db, op: Op)
    requires op.Exec? && Apply(db, op).Ok?
    ensures Apply(db, op) == Atomic(db, op.cmd)
  {
  }

  lemma NextNumber(s: State, mid: State, q: nat)
    requires Extends(s, mid, q)
    ensures q !in mid.requests
  {
  }

  lemma ExtendsMore(s: State, mid: State, mid': State, q: nat)
    requires Extends(s, mid, q) && q in mid'.requests && mid'.requests == mid.requests[q := mid'.requests[q]]
    ensures Extends(s, mid', q + 1)
    ensures forall r :: r in mid.requests && r < q ==> r in mid'.requests && mid'.requests[r] == mid.requests[r]
  {
  }

  lemma ExecScene(s: State, mid: State, first: nat, init: seq<Op>, op: Op, callers: nat -> Caller)
    requires op.Exec? && Shaped(mid.db) && Reached(s, mid, first, init, callers) && Apply(mid.db, op).Ok?
    requires Perform(s.db, init + [op]) == Apply(mid.db, op).value
    ensures Honest(mid, Scene(first, init, op, callers))
    ensures Reached(s, Run(mid, Scene(first, init, op, callers)), first, init + [op], callers)
  {
    hide Apply, Perform, Alone, Run, Honest, AuditsDue, Pending, Extends, Atomic, Shaped;
    ApplyExec(mid.db, op);
    NextNumber(s, mid, first + |init|);
    AloneIsAtomic(mid, first + |init|, op.cmd);
    ExtendsMore(s, mid, Run(mid, Alone(first + |init|, op.cmd)), first + |init|);
    DueLater(mid, Run(mid, Alone(first + |init|, op.cmd)), first, init, op, callers);
  }

  lemma RemoveScene(s: State, mid: State, first: nat, init: seq<Op>, op: Op, callers: nat -> Caller)
    requires op.Remove? && Reached(s, mid, first, init, callers) && Apply(mid.db, op).Ok?
    requires Perform(s.db, init + [op]) == Apply(mid.db, op).value
    requires callers(op.r).role == Admin && mid.db.rows[op.key].record.status == Draft
    ensures Honest(mid, Scene(first, init, op, callers))
    ensures Reached(s, Run(mid, Scene(first, init, op, callers)), first, init + [op], callers)
  {
    hide Perform, Run, Honest, AuditsDue, Pending, Reading, Step, Extends;
    var q, cmd, rec := first + |init|, Delete(op.key, callers(op.r)), mid.db.rows[op.key].record;
    NextNumber(s, mid, q);
    TestingRun(mid, q, cmd);
    RemovalStep(mid.db, mid.requests, q, cmd, rec);
    RunSnoc(mid, Reading(q, cmd), Next(q));
    ExtendsMore(s, mid, Run(mid, Reading(q, cmd) + [Next(q)]), q);
    DueLater(mid, Run(mid, Reading(q, cmd) + [Next(q)]), first, init, op, callers);
  }

  lemma OneEvent(s: State, e: Event)
    requires !e.Begin?
    ensures Run(s, [] + [e]) == Step(s, e) && Honest(s, [] + [e])
  {
    RunSnoc(s, [], e);
  }

  lemma NoteStep(s: State, q: nat, op: Op)
    requires op.Note? && op.before == Draft && AwaitsAudit(s, q, op.cmd)
    ensures Step(s, Next(q)).db == Apply(s.db, op).value
    ensures Step(s, Next(q)).requests == s.requests[q := Done(op.cmd, Ok(NoContent))]
  {
  }

  lemma NoteScene(s: State, mid: State, first: nat, init: seq<Op>, op: Op, callers: nat -> Caller)
    requires op.Note? && Reached(s, mid, first, init, callers)
    requires forall r :: r in s.requests ==> r < first
    requires Perform(s.db, init + [op]) == Apply(mid.db, op).value
    requires Pending(init, op.r) >= 0 && op.cmd == Removal(init, Pending(init, op.r), callers) && op.before == Draft
    ensures Honest(mid, Scene(first, init, op, callers))
    ensures Reached(s, Run(mid, Scene(first, init, op, callers)), first, init + [op], callers)
  {
    hide Perform, Pending, Step, Removal, Run, Honest, Apply;
    var q := first + Pending(init, op.r);
    assert AwaitsAudit(mid, q, op.cmd);
    hide AuditsDue, AwaitsAudit;
    NoteStep(mid, q, op);
    OneEvent(mid, Next(q));
    DueLater(mid, Step(mid, Next(q)), first, init, op, callers);
  }

  lemma ScriptLast(first: nat, init: seq<Op>, op: Op, callers: nat -> Caller)
    ensures Script(first, init + [op], callers) == Script(first, init, callers) + Scene(first, init, op, callers)
  {
    assert (init + [op])[..|init|] == init;
  }

  /** The script of a history is a run of honest requests with the history's outcome. */
  ghost predicate Realised(s: State, first: nat, ops: seq<Op>, callers: nat -> Caller) {
    var es := Script(first, ops, callers);
    Honest(s, es) && Reached(s, Run(s, es), first, ops, callers)
  }

  lemma LastDeletes(db: Db, init: seq<Op>, op: Op, callers: nat -> Caller)
    requires Deletes(db, init + [op], callers)
    ensures Deletes(db, init, callers)
    ensures op.Remove? && op.key in Perform(db, init).rows ==>
              callers(op.r).role == Admin && Perform(db, init).rows[op.key].record.status == Draft
    ensures op.Note? ==>
              Pending(init, op.r) >= 0 && op.cmd == Removal(init, Pending(init, op.r), callers) && op.before == Draft
  {
    assert (init + [op])[..|init|] == init && (init + [op])[|init|] == op;
  }

  lemma RealisedSnoc(s: State, first: nat, init: seq<Op>, op: Op, callers: nat -> Caller)
    requires Shaped(s.db) && Accepted(s.db, init + [op]) && Deletes(s.db, init + [op], callers)
    requires Realised(s, first, init, callers) && forall r :: r in s.requests ==> r < first
    ensures Realised(s, first, init + [op], callers)
  {
    hide Perform, Accepted, Script, Scene, Run, Honest, Shaped, Later, Deletes, AuditsDue, Extends, Pending;
    LastOp(s.db, init, op);
    LastDeletes(s.db, init, op, callers);
    ScriptLast(first, init, op, callers);
    PerformOk(s.db, init);
    var mid := Run(s, Script(first, init, callers));
    if op.Exec? {
      ExecScene(s, mid, first, init, op, callers);
    } else if op.Remove? {
      RemoveScene(s, mid, first, init, op, callers);
    } else {
      NoteScene(s, mid, first, init, op, callers);
    }
    RunConcat(s, Script(first, init, callers), Scene(first, init, op, callers));
    HonestConcat(s, Script(first, init, callers), Scene(first, init, op, callers));
  }

  lemma NothingRealised(s: State, first: nat, callers: nat -> Caller)
    requires forall r :: r in s.requests ==> r < first
    ensures Realised(s, first, [], callers)
  {
  }

  /** Converse of the refinement: every accepted sequential history of creates, updates,
      transitions and deletes of drafts is what some run of honest requests leaves behind. */
  lemma {:induction false} HistoriesAreRuns(s: State, first: nat, ops: seq<Op>, callers: nat -> Caller)
    requires Shaped(s.db) && Accepted(s.db, ops) && Deletes(s.db, ops, callers)
    requires forall r :: r in s.requests ==> r < first
    ensures Realised(s, first, ops, callers)
  {
    hide Apply, Perform, Scene, Accepted, Deletes, Script;
    if ops == [] {
      NothingRealised(s, first, callers);
    } else {
      var init, last := ops[..|ops| - 1], ops[|ops| - 1];
      assert ops == init + [last];
      LastOp(s.db, init, last);
      LastDeletes(s.db, init, last, callers);
      HistoriesAreRuns(s, first, init, callers);
      RealisedSnoc(s, first, init, last, callers);
    }
  }

  /** The requests of one run: an update that guesses the next version reads a draft, the
      draft is submitted for review, and then the update's transaction runs. */
  function Bypass(guess: Command, submit: Command, a: nat, b: nat): seq<Event> {
    Reading(a, guess) + Alone(b, submit) + [Next(a)]
  }

  /** A request that is ready keeps waiting while another runs, and then commits. */
  lemma OvertakenRun(s: State, ready: Command, rec: Record, item: Record, submit: Command, a: nat, b: nat)
    requires Shaped(s.db) && b !in s.requests && a != b && Edits(ready) && Edits(submit)
    requires a in s.requests && s.requests[a] == Checked(ready, rec, item) && Atomic(s.db, submit).Ok?
    ensures match Commit(Atomic(s.db, submit).value, ready, rec, item)
            case Ok(db) => Run(s, Alone(b, submit) + [Next(a)]).db == db
            case Err(_) => Run(s, Alone(b, submit) + [Next(a)]).db == Atomic(s.db, submit).value
  {
    hide Atomic, Commit, Alone, Run, Honest, Decide;
    AloneEdit(s, b, submit);
    RunSnoc(s, Alone(b, submit), Next(a));
    assert Run(s, Alone(b, submit)).requests[a] == Checked(ready, rec, item);
  }

  lemma BypassRun(s: State, guess: Command, submit: Command, a: nat, b: nat)
    requires Shaped(s.db) && a !in s.requests && b !in s.requests && a != b
    requires Edits(guess) && Edits(submit) && guess.key == submit.key && Gate(guess) && Live(s.db, guess.key)
    requires Decide(guess, s.db.rows[guess.key].record).Ok? && Atomic(s.db, submit).Ok?
    ensures var rec := s.db.rows[guess.key].record;
            match Commit(Atomic(s.db, submit).value, guess, rec, Decide(guess, rec).value)
            case Ok(db) => Run(s, Bypass(guess, submit, a, b)).db == db
            case Err(_) => Run(s, Bypass(guess, submit, a, b)).db == Atomic(s.db, submit).value
    ensures Honest(s, Bypass(guess, submit, a, b)) ==> Vouched(s.db, guess)
  {
    hide Atomic, Commit, Alone, Reading, Run, Honest, Decide, Gate, Vouched;
    var rec := s.db.rows[guess.key].record;
    ReadingRun(s, a, guess);
    OvertakenRun(Checked3(s, a, guess, rec), guess, rec, Decide(guess, rec).value, submit, a, b);
    var rest := Alone(b, submit) + [Next(a)];
    assert Bypass(guess, submit, a, b) == Reading(a, guess) + rest;
    RunConcat(s, Reading(a, guess), rest);
    HonestConcat(s, Reading(a, guess), rest);
  }

  /** Without the hypothesis the lock can be passed: from any state with a draft authorization
      there is a run of two operators' requests, of which only the update sends a version it
      has not seen, that ends with the record back in draft and its fields replaced after the
      submission, although review to draft is a reviewer's decision. */
  lemma LockNeedsHypothesis(s: State, key: Key, fields: Fields, editor: Caller, submitter: Caller, a: nat, b: nat)
    requires Shaped(s.db) && Live(s.db, key) && key.kind == Authorization
    requires s.db.rows[key].record.status == Draft && ValidBusinessFields(s.db.rows[key].record.code, fields)
    requires editor.role == Operator && submitter.role == Operator
    requires a !in s.requests && b !in s.requests && a != b
    ensures var v := s.db.rows[key].record.version;
            var es := Bypass(Update(key, v + 1, fields, editor),
                             Transition(key, v, Review, "submitted", submitter), a, b);
            var end := Run(s, es).db;
            var log := LogOf(end.revisions, key);
            && !Honest(s, es)
            && Live(end, key) && end.rows[key].record.status == Draft && end.rows[key].record.fields == fields
            && |log| == v + 2 && log[v].status == Review && log[v + 1].status == Draft
            && log[v + 1].action == UpdateAction && !Follows(key.kind, log[v], log[v + 1])
  {
    hide Decide, Serve, Atomic, Commit, Run, Step, Honest, LogOf, Alone, Reading, Bypass;
    assert ShapedAt(s.db, key);
    var v := s.db.rows[key].record.version;
    var guess := Update(key, v + 1, fields, editor);
    var submit := Transition(key, v, Review, "submitted", submitter);
    OperatorsMay(s.db, guess, submit);
    BypassRun(s, guess, submit, a, b);
    BypassLogs(s.db, key, guess, submit);
    NotVouched(s.db, guess);
  }

  lemma OperatorsMay(db: Db, guess: Command, submit: Command)
    requires guess.Update? && Shaped(db) && Live(db, guess.key)
    requires guess.key.kind == Authorization && db.rows[guess.key].record.status == Draft
    requires guess.who.role == Operator && ValidBusinessFields(db.rows[guess.key].record.code, guess.fields)
    requires submit.Transition? && submit.key == guess.key && submit.target == Review && submit.who.role == Operator
    requires submit.expected == db.rows[guess.key].record.version
    ensures Gate(guess) && Decide(guess, db.rows[guess.key].record).Ok? && Atomic(db, submit).Ok?
  {
    assert ShapedAt(db, guess.key);
  }

  lemma NotVouched(db: Db, guess: Command)
    requires Shaped(db) && Edits(guess) && Live(db, guess.key)
    requires guess.expected == db.rows[guess.key].record.version + 1
    ensures !Vouched(db, guess)
  {
    assert ShapedAt(db, guess.key);
  }

  /** What the accepted submission of a draft leaves. */
  lemma SubmitLogs(db: Db, key: Key, submit: Command)
    requires Shaped(db) && Live(db, key) && submit.Transition? && submit.key == key && submit.target == Review
    requires Atomic(db, submit).Ok?
    ensures var rec, v, reviewed := db.rows[key].record, db.rows[key].record.version, Atomic(db, submit).value;
            && Live(reviewed, key) && reviewed.rows[key].record.version == v + 1
            && reviewed.rows[key].record.code == rec.code
            && var log := LogOf(reviewed.revisions, key);
            |log| == v + 1 && log[v].status == Review
  {
    hide Decide, LogOf;
    assert ShapedAt(db, key);
    var rec := db.rows[key].record;
    DecideFrame(submit, rec);
    DecideMoves(submit, rec);
    SubmitStatus(submit, rec);
    LogOfAppend(db.revisions,
                NewRevision(key, Decide(submit, rec).value, submit.who, TransitionAction, submit.reason), key);
  }

  lemma SubmitStatus(submit: Command, rec: Record)
    requires submit.Transition? && Decide(submit, rec).Ok?
    ensures Decide(submit, rec).value.status == submit.target
  {
  }

  /** What the commit of a guessed update leaves on top of it. */
  lemma OverwriteLogs(reviewed: Db, guess: Command, rec: Record)
    requires guess.Update? && Decide(guess, rec).Ok? && Live(reviewed, guess.key)
    requires reviewed.rows[guess.key].record.version == guess.expected
    ensures var end := Commit(reviewed, guess, rec, Decide(guess, rec).value);
            && end.Ok? && Live(end.value, guess.key)
            && end.value.rows[guess.key].record.status == Draft
            && end.value.rows[guess.key].record.fields == guess.fields
            && exists last: Revision ::
                 LogOf(end.value.revisions, guess.key) == LogOf(reviewed.revisions, guess.key) + [last]
                 && last.status == Draft && last.action == UpdateAction
  {
    hide LogOf;
    var last := NewRevision(guess.key, Decide(guess, rec).value, guess.who, UpdateAction, UpdateReason(guess.key.kind));
    LogOfAppend(reviewed.revisions, last, guess.key);
  }

  lemma BypassLogs(db: Db, key: Key, guess: Command, submit: Command)
    requires Shaped(db) && Live(db, key) && key.kind == Authorization && db.rows[key].record.status == Draft
    requires guess.Update? && guess.key == key && guess.expected == db.rows[key].record.version + 1
    requires submit.Transition? && submit.key == key && submit.target == Review
    requires submit.expected == db.rows[key].record.version
    requires Decide(guess, db.rows[key].record).Ok? && Atomic(db, submit).Ok?
    ensures var rec, v := db.rows[key].record, db.rows[key].record.version;
            var reviewed := Atomic(db, submit).value;
            var end := Commit(reviewed, guess, rec, Decide(guess, rec).value);
            && end.Ok? && Live(end.value, key)
            && end.value.rows[key].record.status == Draft && end.value.rows[key].record.fields == guess.fields
            && var log := LogOf(end.value.revisions, key);
            |log| == v + 2 && log[v].status == Review && log[v + 1].status == Draft && log[v + 1].action == UpdateAction
  {
    hide Decide, Commit, Atomic, LogOf;
    SubmitLogs(db, key, submit);
    OverwriteLogs(Atomic(db, submit).value, guess, db.rows[key].record);
  }
}
